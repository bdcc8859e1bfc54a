/** What a ready move does to one joint over a run of calls: when it counts as stuck, how it is
    commanded, and how many calls the move is given. */
module StuckJoints {
  import opened Control
  import opened Reals
  import opened ReadyMove

  // ----- the budget -----

  lemma {:induction false} FarthestJoint(js: seq<Joint>, n: nat) returns (i: nat)
    requires 0 < n <= |js|
    ensures i < n && MaxDisplacement(js, n) == Abs(js[i].home - js[i].pos)
  {
    var last := Abs(js[n - 1].home - js[n - 1].pos);
    if n == 1 || MaxDisplacement(js, n - 1) <= last {
      i := n - 1;
    } else {
      i := FarthestJoint(js, n - 1);
    }
  }

  /** A move is given three times the calls its farthest joint needs, and 30 more, but never fewer than
      1500; `needed` steps are the fewest that cover more than its way. */
  lemma BudgetIsAmple(js: seq<Joint>, step: real, needed: int)
    requires |js| > 0 && step > 0.000000001
    requires (needed - 1) as real * step <= MaxDisplacement(js, |js|) < needed as real * step
    ensures Budget(MaxDisplacement(js, |js|), step) == if 3 * needed + 30 > 1500 then 3 * needed + 30 else 1500
    ensures (forall i :: 0 <= i < |js| ==> Abs(js[i].home - js[i].pos) < needed as real * step)
    ensures exists i :: 0 <= i < |js| && Abs(js[i].home - js[i].pos) >= (needed - 1) as real * step
  {
    var d := MaxDisplacement(js, |js|);
    var i := FarthestJoint(js, |js|);
    NeededIsFloor(d, step, needed);
  }

  lemma NeededIsFloor(d: real, step: real, needed: int)
    requires step > 0.0 && (needed - 1) as real * step <= d < needed as real * step
    ensures (d / step).Floor + 1 == needed
  {
    var q := d / step;
    DivMul(d, step);
    if q >= needed as real {
      MulMono(needed as real, q, step);
    } else if q < (needed - 1) as real {
      MulStrict(q, (needed - 1) as real, step);
    }
  }

  lemma MulStrict(a: real, b: real, v: real)
    requires a < b && v > 0.0
    ensures a * v < b * v
  {
    MulPositive(b - a, v);
    assert (b - a) * v == b * v - a * v;
  }

  // ----- one command -----

  /** The pose is short of the target by more than the tolerance, and the last command lies on the
      other side of it. */
  predicate OnOtherSides(j: Joint) {
    Abs(j.target - j.pos) > j.margin && (j.pos < j.target < j.prev || j.prev < j.target < j.pos)
  }

  /** A command of the ready move takes one step towards the target, or goes to it; it starts from the
      last command, or from the pose when the target lies between the two. */
  lemma CommandStepsHome(j: Joint, step: real)
    requires step >= 0.0 && j.margin >= 0.0
    ensures var k := ReadyJoint(j, step); var base := if OnOtherSides(j) then j.pos else j.prev;
      && k.commands == j.commands + 1 && k.prev == k.sent && k.target == j.target
      && Abs(k.target - k.sent) == Max(0.0, Abs(j.target - base) - step)
      && Abs(k.sent - base) <= step
  {
  }

  // ----- stuck joints -----

  /** The joint at the reading of call `k`, the first being call 1. */
  function AtCall(m: Move, step: real, ins: seq<CallInput>, i: nat, k: nat): Joint
    requires 1 <= k <= |ins| && i < |m.joints|
    requires |Calls(m, step, ins[..k - 1]).joints| == |m.joints|
  {
    Measured(Calls(m, step, ins[..k - 1]).joints[i], ins[k - 1].poses(i))
  }

  lemma {:induction false} SameJoints(m: Move, step: real, ins: seq<CallInput>)
    ensures |Calls(m, step, ins).joints| == |m.joints|
    ensures forall i :: 0 <= i < |m.joints| ==>
      var j, k := m.joints[i], Calls(m, step, ins).joints[i];
      k.servo == j.servo && k.home == j.home && k.margin == j.margin
  {
    hide Budget, MaxDisplacement, FailedMoves, Approach, Base;
    if |ins| > 0 {
      SameJoints(m, step, ins[..|ins| - 1]);
    }
  }

  /** In call `k` joint `i` is short of home and has not moved since the call before. */
  ghost predicate Stands(m: Move, step: real, ins: seq<CallInput>, i: nat, k: nat) {
    && 1 <= k <= |ins| && i < |m.joints|
    && |Calls(m, step, ins[..k - 1]).joints| == |m.joints|
    && var j := AtCall(m, step, ins, i, k);
      && Abs(j.home - j.pos) > j.margin
      && (k == 1 || Abs(j.pos - Calls(m, step, ins[..k - 1]).joints[i].pos) < READY_MOVE_STUCK_POS_DELTA_RAD)
  }

  /** The move is still under way at the beginning of call `k`, and joint `i` takes part in it. */
  ghost predicate TakesPart(m: Move, step: real, ins: seq<CallInput>, i: nat, k: nat) {
    && 1 <= k <= |ins| && i < |m.joints|
    && var b := Calls(m, step, ins[..k - 1]);
      !b.progress.done && |b.joints| == |m.joints| && !Skips(b.joints[i], b.failed + ins[k - 1].lost)
  }

  /** What the code remembers of the last calls: `q.stuckCount` of them found the joint standing. */
  ghost predicate Remembers(m: Move, step: real, ins: seq<CallInput>, i: nat, q: Joint) {
    var n := |ins|;
    && q.stuckCount <= n && q.target == q.home && q.stuckLast == q.pos
    && (forall k :: n - q.stuckCount < k <= n ==> Stands(m, step, ins, i, k))
    && (q.stuckCount < n ==> !Stands(m, step, ins, i, n - q.stuckCount))
  }

  /** 201 calls in a row, ending with call `e`, found the joint standing. */
  ghost predicate LongStand(m: Move, step: real, ins: seq<CallInput>, i: nat, e: nat) {
    e > READY_MOVE_STUCK_ITER_THRESHOLD
    && forall k :: e - READY_MOVE_STUCK_ITER_THRESHOLD - 1 < k <= e ==> Stands(m, step, ins, i, k)
  }

  // ----- a run of calls -----

  /** A call takes a joint that takes part in it from `b` to `q`. */
  lemma OneCall(b: Move, step: real, inp: CallInput, i: nat)
    requires i < |b.joints| && !b.progress.done && !Skips(b.joints[i], b.failed + inp.lost)
    ensures var j := Measured(b.joints[i], inp.poses(i)); var q := Call(b, step, inp).joints[i];
      q == ReadyJoint(if b.progress.initCount < 1 then Prepared(j) else j, step)
  {
    hide Budget, MaxDisplacement, FailedMoves, ReadyJoint;
  }

  lemma CallsSplit(m: Move, step: real, ins: seq<CallInput>)
    requires |ins| > 0
    ensures Calls(m, step, ins) == Call(Calls(m, step, ins[..|ins| - 1]), step, ins[|ins| - 1])
  {
  }

  /** A move is started by its first call and by no later one. */
  lemma {:induction false} StartedOnce(m: Move, step: real, ins: seq<CallInput>)
    requires !m.progress.done && m.progress.initCount == 0
    ensures Calls(m, step, ins).progress.initCount < 1 <==> |ins| == 0
  {
    hide Budget, MaxDisplacement, FailedMoves, Swept, Responsive, Blocked;
    if |ins| > 0 {
      StartedOnce(m, step, ins[..|ins| - 1]);
    }
  }

  lemma PrefixStands(m: Move, step: real, ins: seq<CallInput>, i: nat, k: nat, n: nat)
    requires k <= n <= |ins|
    ensures Stands(m, step, ins[..n], i, k) <==> Stands(m, step, ins, i, k)
  {
    if 1 <= k {
      assert ins[..n][..k - 1] == ins[..k - 1];
    }
  }

  ghost predicate AllTakePart(m: Move, step: real, ins: seq<CallInput>, i: nat) {
    forall k: nat :: 1 <= k <= |ins| ==> TakesPart(m, step, ins, i, k)
  }

  lemma PrefixTakesPart(m: Move, step: real, ins: seq<CallInput>, i: nat, n: nat)
    requires n <= |ins| && AllTakePart(m, step, ins, i)
    ensures AllTakePart(m, step, ins[..n], i)
  {
    forall k: nat | 1 <= k <= n ensures TakesPart(m, step, ins[..n], i, k) {
      assert TakesPart(m, step, ins, i, k);
      assert ins[..n][..k - 1] == ins[..k - 1];
    }
  }

  /** The code's counter is the number of calls in a row, up to now, that found the joint standing. */
  lemma {:induction false} CountsStanding(m: Move, step: real, ins: seq<CallInput>, i: nat)
    requires !m.progress.done && m.progress.initCount == 0 && |ins| >= 1 && i < |m.joints|
    requires AllTakePart(m, step, ins, i)
    ensures |Calls(m, step, ins).joints| == |m.joints|
    ensures Remembers(m, step, ins, i, Calls(m, step, ins).joints[i])
    ensures Calls(m, step, ins).joints[i].latched <==> exists e: nat :: e <= |ins| && LongStand(m, step, ins, i, e)
  {
    hide Call, ReadyJoint, Stands, Remembers, LongStand, Calls;
    SameJoints(m, step, ins);
    var n := |ins| - 1;
    var front := ins[..n];
    var b := Calls(m, step, front);
    SameJoints(m, step, front);
    StartedOnce(m, step, front);
    CallsSplit(m, step, ins);
    assert TakesPart(m, step, ins, i, n + 1);
    OneCall(b, step, ins[n], i);
    var j := Measured(b.joints[i], ins[n].poses(i));
    assert j == AtCall(m, step, ins, i, n + 1);
    var q := Calls(m, step, ins).joints[i];
    if n == 0 {
      FirstRemembers(m, step, ins, i, j, q);
    } else {
      PrefixTakesPart(m, step, ins, i, n);
      CountsStanding(m, step, front, i);
      forall k: nat | k <= n ensures Stands(m, step, front, i, k) <==> Stands(m, step, ins, i, k) {
        PrefixStands(m, step, ins, i, k, n);
      }
      NextRemembers(m, step, ins, i, b.joints[i], j, q);
      forall e: nat | e <= n ensures LongStand(m, step, front, i, e) <==> LongStand(m, step, ins, i, e) {
        PrefixLongStand(m, step, ins, i, e, n);
      }
    }
    CountIsLong(m, step, ins, i, q);
  }

  /** One more call: the counter goes on, or starts over. */
  lemma NextRemembers(m: Move, step: real, ins: seq<CallInput>, i: nat, p: Joint, j: Joint, q: Joint)
    requires |ins| >= 2 && i < |m.joints| && |Calls(m, step, ins[..|ins| - 1]).joints| == |m.joints|
    requires p == Calls(m, step, ins[..|ins| - 1]).joints[i] && j == AtCall(m, step, ins, i, |ins|)
    requires q == ReadyJoint(j, step) && Remembers(m, step, ins[..|ins| - 1], i, p)
    requires forall k: nat :: k <= |ins| - 1 ==>
      (Stands(m, step, ins[..|ins| - 1], i, k) <==> Stands(m, step, ins, i, k))
    ensures Remembers(m, step, ins, i, q)
    ensures q.latched <==> p.latched || q.stuckCount > READY_MOVE_STUCK_ITER_THRESHOLD
  {
    hide Calls, Approach, Base;
    assert Stands(m, step, ins, i, |ins|) <==>
      Abs(j.home - j.pos) > j.margin && Abs(j.pos - p.pos) < READY_MOVE_STUCK_POS_DELTA_RAD;
    assert q.stuckCount == if Stands(m, step, ins, i, |ins|) then p.stuckCount + 1 else 0;
  }

  lemma CountIsLong(m: Move, step: real, ins: seq<CallInput>, i: nat, q: Joint)
    requires Remembers(m, step, ins, i, q)
    ensures q.stuckCount > READY_MOVE_STUCK_ITER_THRESHOLD <==> LongStand(m, step, ins, i, |ins|)
  {
    hide Stands;
  }

  lemma PrefixLongStand(m: Move, step: real, ins: seq<CallInput>, i: nat, e: nat, n: nat)
    requires e <= n <= |ins|
    ensures LongStand(m, step, ins[..n], i, e) <==> LongStand(m, step, ins, i, e)
  {
    hide Stands;
    forall k: nat | k <= n ensures Stands(m, step, ins[..n], i, k) <==> Stands(m, step, ins, i, k) {
      PrefixStands(m, step, ins, i, k, n);
    }
  }

  lemma FirstRemembers(m: Move, step: real, ins: seq<CallInput>, i: nat, j: Joint, q: Joint)
    requires |ins| == 1 && i < |m.joints| && |Calls(m, step, ins[..0]).joints| == |m.joints|
    requires j == AtCall(m, step, ins, i, 1) && q == ReadyJoint(Prepared(j), step)
    ensures Remembers(m, step, ins, i, q) && !q.latched
    ensures forall e: nat :: e <= 1 ==> !LongStand(m, step, ins, i, e)
  {
    hide Calls, Approach, Base;
    assert Stands(m, step, ins, i, 1) <==> Abs(j.home - j.pos) > j.margin;
  }
}
