/** A healthy ready move: every measurement finds the joint where the previous command put it.
    Such a move runs straight home, is never cut short by its budget, and ends with every joint
    in place exactly when the step is large enough not to be mistaken for standing still. */
module HealthyMove {
  import opened Wrappers
  import opened Control
  import opened Reals
  import opened ReadyMove

  function HealthyInput(m: Move): CallInput {
    CallInput((i: nat) => if m.progress.initCount < 1 || i >= |m.joints| then None else Some(m.joints[i].prev),
              {}, (i: nat) => Success)
  }

  function HealthyCalls(m: Move, step: real, n: nat): Move {
    if n == 0 then m
    else
      var before := HealthyCalls(m, step, n - 1);
      Call(before, step, HealthyInput(before))
  }

  /** A move about to start, with every joint in use. */
  predicate Fresh(m: Move) {
    && !m.progress.done && m.progress.initCount == 0 && m.failed == {} && |m.joints| > 0
    && forall i :: 0 <= i < |m.joints| ==> m.joints[i].margin >= 0.0
  }

  // ----- the way of one joint -----

  /** Where the command of a joint is after `k` calls. */
  function Along(from: real, to: real, step: real, k: nat): real {
    if k == 0 then from else Approach(Along(from, to, step, k - 1), to, step)
  }

  function Gap(from: real, to: real, step: real, k: nat): (g: real)
    ensures g >= 0.0
  {
    Abs(to - Along(from, to, step, k))
  }

  lemma GapStep(from: real, to: real, step: real, k: nat)
    requires step > 0.0
    ensures Gap(from, to, step, k + 1) == Max(0.0, Gap(from, to, step, k) - step)
    ensures Abs(Along(from, to, step, k + 1) - Along(from, to, step, k))
              == Gap(from, to, step, k) - Gap(from, to, step, k + 1)
  {
  }

  lemma OneMore(k: nat, step: real)
    ensures Part((k + 1) as real, step) == Part(k as real, step) + step
  {
  }

  /** The command covers one step per call, never crosses home and stays there. */
  lemma {:induction false} GapClosed(from: real, to: real, step: real, k: nat)
    requires step > 0.0
    ensures Gap(from, to, step, k) == Max(0.0, Abs(to - from) - Part(k as real, step))
    ensures from <= to ==> from <= Along(from, to, step, k) <= to
    ensures to <= from ==> to <= Along(from, to, step, k) <= from
  {
    hide Part;
    if k == 0 {
      NoSteps(step);
    } else {
      GapClosed(from, to, step, k - 1);
      GapStep(from, to, step, k - 1);
      OneMore(k - 1, step);
      StepsForward(k - 1, step);
    }
  }

  lemma NoSteps(step: real)
    ensures Part(0 as real, step) == 0.0
  {
  }

  lemma StepsForward(k: nat, step: real)
    requires step > 0.0
    ensures Part(k as real, step) >= 0.0
  {
    ProductOfNonNegatives(k as real, step);
  }

  lemma {:induction false} GapShrinks(from: real, to: real, step: real, k: nat, n: nat)
    requires step > 0.0 && k <= n
    ensures Gap(from, to, step, n) <= Gap(from, to, step, k)
    decreases n
  {
    if k < n {
      GapShrinks(from, to, step, k, n - 1);
      GapStep(from, to, step, n - 1);
    }
  }

  /** The number of calls the budget is computed from suffices. */
  lemma TravelSuffices(d: real, step: real, k: nat)
    requires d >= 0.0 && step > 0.000000001 && k >= TravelCalls(d, step)
    ensures Part(k as real, step) >= d
  {
    DivMul(d, step);
    assert k as real >= d / step;
    MulMono(d / step, k as real, step);
  }

  lemma TravelMono(d: real, e: real, step: real)
    requires 0.0 <= d <= e
    ensures 1 <= TravelCalls(d, step) <= TravelCalls(e, step)
  {
    var s := if step > 0.000000001 then step else 0.000000001;
    DivMono(d, e, s);
    DivMono(0.0, d, s);
  }

  // ----- one joint after `k` calls -----

  function GapOf(j0: Joint, step: real, k: nat): (g: real)
    ensures g >= 0.0
  {
    Gap(j0.pos, j0.home, step, k)
  }

  /** `j` is what `k` healthy calls have made of `j0`. */
  predicate OnTheWay(j0: Joint, j: Joint, step: real, k: nat)
    requires k >= 1
  {
    && j.servo == j0.servo && j.home == j0.home && j.margin == j0.margin && j.target == j0.home
    && j.prev == Along(j0.pos, j0.home, step, k)
    && j.pos == j.stuckLast == Along(j0.pos, j0.home, step, k - 1)
    && (step >= READY_MOVE_STUCK_POS_DELTA_RAD ==> !j.latched && (k > 1 ==> j.stuckCount == 0) && j.stuckCount <= 1)
    && (step < READY_MOVE_STUCK_POS_DELTA_RAD ==>
          && j.stuckCount == (if GapOf(j0, step, k - 1) > j0.margin then k else 0)
          && (j.latched <==> k > READY_MOVE_STUCK_ITER_THRESHOLD
                             && GapOf(j0, step, READY_MOVE_STUCK_ITER_THRESHOLD) > j0.margin))
  }

  lemma FirstCall(j0: Joint, step: real)
    requires step > 0.0 && j0.margin >= 0.0
    ensures OnTheWay(j0, ReadyJoint(Prepared(Measured(j0, None)), step), step, 1)
  {
    assert Along(j0.pos, j0.home, step, 1) == Approach(j0.pos, j0.home, step);
  }

  lemma NextCall(j0: Joint, j: Joint, step: real, k: nat)
    requires step > 0.0 && j0.margin >= 0.0 && k >= 1 && OnTheWay(j0, j, step, k)
    ensures OnTheWay(j0, ReadyJoint(Measured(j, Some(j.prev)), step), step, k + 1)
  {
    hide Gap, Along;
    GapStep(j0.pos, j0.home, step, k - 1);
    var jm := Measured(j, Some(j.prev));
    AlongNext(j0, step, k);
    assert Abs(jm.target - jm.pos) == GapOf(j0, step, k);
    assert Abs(jm.pos - jm.stuckLast) == GapOf(j0, step, k - 1) - GapOf(j0, step, k);
    assert Base(jm) == jm.prev;
    if k >= READY_MOVE_STUCK_ITER_THRESHOLD {
      GapShrinks(j0.pos, j0.home, step, READY_MOVE_STUCK_ITER_THRESHOLD, k);
    }
  }

  lemma AlongNext(j0: Joint, step: real, k: nat)
    ensures Along(j0.pos, j0.home, step, k + 1) == Approach(Along(j0.pos, j0.home, step, k), j0.home, step)
    ensures Abs(j0.home - Along(j0.pos, j0.home, step, k)) == GapOf(j0, step, k)
  {
  }

  // ----- all joints after `k` calls -----

  function Travel(m: Move): (d: real)
    ensures d >= 0.0
  {
    MaxDisplacement(m.joints, |m.joints|)
  }

  /** From this call on no joint keeps the move going: it is home, or taken for stuck. */
  function QuietAfter(m: Move, step: real): int {
    if step < READY_MOVE_STUCK_POS_DELTA_RAD then READY_MOVE_STUCK_ITER_THRESHOLD
    else TravelCalls(Travel(m), step)
  }

  predicate InPlaceAt(m: Move, step: real, k: nat) {
    forall i :: 0 <= i < |m.joints| ==>
      GapOf(m.joints[i], step, k) <= m.joints[i].margin + READY_MOVE_TOLERANCE_HYSTERESIS_RAD
  }

  predicate AllOnTheWay(m0: Move, m: Move, step: real, k: nat)
    requires k >= 1
  {
    |m.joints| == |m0.joints| && forall i :: 0 <= i < |m.joints| ==> OnTheWay(m0.joints[i], m.joints[i], step, k)
  }

  /** The state after `k` calls of a healthy move. */
  predicate UnderWay(m0: Move, m: Move, step: real, k: nat)
    requires k >= 1
  {
    var p := m.progress;
    && AllOnTheWay(m0, m, step, k) && m.failed == {}
    && p.initCount >= 1 && p.used == k && p.total == Budget(Travel(m0), step)
    && p.reached <= k && p.reached <= DEVICE_ARRIVED_CONFIRM_CNT + 1
    && p.reached >= k - QuietAfter(m0, step)
    && (p.done <==> p.reached > DEVICE_ARRIVED_CONFIRM_CNT)
    && (p.reached >= 1 ==>
          || (k - p.reached >= READY_MOVE_STUCK_ITER_THRESHOLD && step < READY_MOVE_STUCK_POS_DELTA_RAD)
          || InPlaceAt(m0, step, k - p.reached))
  }

  lemma QuietFitsBudget(m0: Move, step: real)
    requires step > 0.0
    ensures 1 <= QuietAfter(m0, step)
    ensures QuietAfter(m0, step) + DEVICE_ARRIVED_CONFIRM_CNT + 1 <= Budget(Travel(m0), step)
  {
    TravelMono(0.0, Travel(m0), step);
  }

  /** Joint `i` when the sweep of call `k + 1` looks at it: its measurement is its last command. */
  lemma BlocksOnlyEarly(m0: Move, i: nat, jm: Joint, step: real, k: nat)
    requires step > 0.0 && i < |m0.joints| && m0.joints[i].margin >= 0.0
    requires jm.margin == m0.joints[i].margin && jm.target == m0.joints[i].home
    requires Abs(jm.target - jm.pos) == GapOf(m0.joints[i], step, k)
    requires OnTheWay(m0.joints[i], ReadyJoint(jm, step), step, k + 1)
    ensures k >= QuietAfter(m0, step) ==> !Blocks(jm)
    ensures !Blocks(jm) ==>
      || (k >= READY_MOVE_STUCK_ITER_THRESHOLD && step < READY_MOVE_STUCK_POS_DELTA_RAD)
      || GapOf(m0.joints[i], step, k) <= jm.margin + READY_MOVE_TOLERANCE_HYSTERESIS_RAD
  {
    hide Gap, Along, Part;
    var j0 := m0.joints[i];
    assert ReadyJoint(jm, step).latched == CheckedStuck(jm).latched;
    if step >= READY_MOVE_STUCK_POS_DELTA_RAD {
      if k >= QuietAfter(m0, step) {
        var d := Abs(j0.home - j0.pos);
        TravelMono(d, Travel(m0), step);
        TravelSuffices(d, step, k);
        GapClosed(j0.pos, j0.home, step, k);
      }
    } else if k >= READY_MOVE_STUCK_ITER_THRESHOLD {
      GapShrinks(j0.pos, j0.home, step, READY_MOVE_STUCK_ITER_THRESHOLD, k);
    }
  }

  /** The joints when the sweep of call `k + 1` begins. */
  function Facing(m: Move, step: real): Move {
    var inp := HealthyInput(m);
    Ready(Move(Read(m.joints, inp.poses), m.progress, m.failed + inp.lost), step)
  }

  lemma SweepOfFirst(m0: Move, step: real)
    requires Fresh(m0) && step > 0.0
    ensures var r := Facing(m0, step);
      && |r.joints| == |m0.joints| && r.failed == {}
      && r.progress == m0.progress.(reached := 0, total := Budget(Travel(m0), step), used := 0)
      && forall i :: 0 <= i < |r.joints| ==> r.joints[i] == Prepared(Measured(m0.joints[i], None))
  {
    SameTravel(m0.joints, Read(m0.joints, HealthyInput(m0).poses), |m0.joints|);
  }

  lemma {:induction false} SameTravel(js: seq<Joint>, ks: seq<Joint>, n: nat)
    requires n <= |js| == |ks| && forall i :: 0 <= i < n ==> ks[i].home == js[i].home && ks[i].pos == js[i].pos
    ensures MaxDisplacement(ks, n) == MaxDisplacement(js, n)
  {
    if n > 0 {
      SameTravel(js, ks, n - 1);
    }
  }

  lemma SweepOfNext(m: Move, step: real)
    requires m.progress.initCount >= 1 && m.failed == {}
    ensures var r := Facing(m, step);
      && |r.joints| == |m.joints| && r.failed == {} && r.progress == m.progress
      && forall i :: 0 <= i < |r.joints| ==> r.joints[i] == Measured(m.joints[i], Some(m.joints[i].prev))
  {
  }

  /** One call, given what the sweep faces. */
  lemma OneCall(m0: Move, m: Move, r: Move, step: real, k: nat)
    requires Fresh(m0) && step > 0.0 && |r.joints| == |m0.joints| && r.failed == {}
    requires forall i :: 0 <= i < |r.joints| ==>
      && r.joints[i].margin == m0.joints[i].margin && r.joints[i].target == m0.joints[i].home
      && Abs(r.joints[i].target - r.joints[i].pos) == GapOf(m0.joints[i], step, k)
      && OnTheWay(m0.joints[i], ReadyJoint(r.joints[i], step), step, k + 1)
    requires r.progress.used == k && r.progress.total == Budget(Travel(m0), step) && !r.progress.done
    requires r.progress.reached <= k && r.progress.reached <= DEVICE_ARRIVED_CONFIRM_CNT
    requires r.progress.reached >= k - QuietAfter(m0, step)
    requires r.progress.reached >= 1 ==>
      || (k - r.progress.reached >= READY_MOVE_STUCK_ITER_THRESHOLD && step < READY_MOVE_STUCK_POS_DELTA_RAD)
      || InPlaceAt(m0, step, k - r.progress.reached)
    requires m == Move(Swept(r.joints, step, r.failed),
                       Counted(r.progress, Responsive(r.joints, r.failed), Blocked(r.joints, r.failed)),
                       {})
    ensures UnderWay(m0, m, step, k + 1)
  {
    hide GapOf, OnTheWay, Blocks, ReadyJoint, Budget, TravelCalls;
    QuietFitsBudget(m0, step);
    assert !Skips(r.joints[0], {});
    forall i | 0 <= i < |r.joints|
      ensures !Skips(r.joints[i], {})
      ensures k >= QuietAfter(m0, step) ==> !Blocks(r.joints[i])
      ensures !Blocks(r.joints[i]) ==>
        || (k >= READY_MOVE_STUCK_ITER_THRESHOLD && step < READY_MOVE_STUCK_POS_DELTA_RAD)
        || GapOf(m0.joints[i], step, k) <= m0.joints[i].margin + READY_MOVE_TOLERANCE_HYSTERESIS_RAD
    {
      BlocksOnlyEarly(m0, i, r.joints[i], step, k);
    }
  }

  lemma NoLost(js: seq<Joint>, codes: nat -> ReturnCode, n: nat)
    requires n <= |js| && forall i: nat :: codes(i).Success?
    ensures FailedMoves(js, {}, codes, n) == {}
  {
  }

  lemma CallIsTick(m: Move, step: real)
    requires !m.progress.done && m.failed == {}
    ensures var r := Facing(m, step);
      r.failed == {} ==>
        Call(m, step, HealthyInput(m))
          == Move(Swept(r.joints, step, r.failed),
                  Counted(r.progress, Responsive(r.joints, r.failed), Blocked(r.joints, r.failed)), {})
  {
    var r := Facing(m, step);
    NoLost(r.joints, HealthyInput(m).codes, |r.joints|);
  }

  /** As long as the move goes on, its state after `k` calls has a closed form. */
  lemma {:induction false} HealthyState(m0: Move, step: real, k: nat)
    requires Fresh(m0) && step > 0.0 && k >= 1
    requires !HealthyCalls(m0, step, k - 1).progress.done
    ensures UnderWay(m0, HealthyCalls(m0, step, k), step, k)
  {
    hide Facing, OnTheWay, ReadyJoint, Call, HealthyInput, Prepared, Measured, Counted, Responsive, Blocked, GapOf,
         QuietAfter, Budget, Travel;
    var before := HealthyCalls(m0, step, k - 1);
    var after := HealthyCalls(m0, step, k);
    var r := Facing(before, step);
    if k == 1 {
      assert before == m0;
      SweepOfFirst(m0, step);
      forall i | 0 <= i < |r.joints|
        ensures OnTheWay(m0.joints[i], ReadyJoint(r.joints[i], step), step, 1)
        ensures r.joints[i].margin == m0.joints[i].margin && r.joints[i].target == m0.joints[i].home
        ensures Abs(r.joints[i].target - r.joints[i].pos) == GapOf(m0.joints[i], step, 0)
      {
        FirstCall(m0.joints[i], step);
        PreparedFacts(m0.joints[i], step);
      }
    } else {
      DoneStays(m0, step, k - 2);
      HealthyState(m0, step, k - 1);
      SweepOfNext(before, step);
      forall i | 0 <= i < |r.joints|
        ensures OnTheWay(m0.joints[i], ReadyJoint(r.joints[i], step), step, k)
        ensures r.joints[i].margin == m0.joints[i].margin && r.joints[i].target == m0.joints[i].home
        ensures Abs(r.joints[i].target - r.joints[i].pos) == GapOf(m0.joints[i], step, k - 1)
      {
        NextCall(m0.joints[i], before.joints[i], step, k - 1);
        MeasuredFacts(m0.joints[i], before.joints[i], step, k - 1);
      }
    }
    CallIsTick(before, step);
    QuietFitsBudget(m0, step);
    OneCall(m0, after, r, step, k - 1);
  }

  lemma PreparedFacts(j0: Joint, step: real)
    ensures var j := Prepared(Measured(j0, None));
      j.margin == j0.margin && j.target == j0.home && Abs(j.target - j.pos) == GapOf(j0, step, 0)
  {
  }

  lemma MeasuredFacts(j0: Joint, j: Joint, step: real, k: nat)
    requires k >= 1 && OnTheWay(j0, j, step, k)
    ensures var jm := Measured(j, Some(j.prev));
      jm.margin == j0.margin && jm.target == j0.home && Abs(jm.target - jm.pos) == GapOf(j0, step, k)
  {
  }

  lemma DoneStays(m0: Move, step: real, k: nat)
    ensures HealthyCalls(m0, step, k).progress.done ==> HealthyCalls(m0, step, k + 1).progress.done
  {
  }

  // ----- the end of the move -----

  /** The first `k` calls of a healthy move, none of which found it done. */
  lemma {:induction false} GoesOnUntil(m0: Move, step: real, n: nat) returns (k: nat)
    requires Fresh(m0) && HealthyCalls(m0, step, n).progress.done
    ensures 1 <= k <= n
    ensures !HealthyCalls(m0, step, k - 1).progress.done && HealthyCalls(m0, step, k).progress.done
  {
    hide Call;
    if HealthyCalls(m0, step, n - 1).progress.done {
      k := GoesOnUntil(m0, step, n - 1);
    } else {
      k := n;
    }
  }

  /** A healthy move ends by its arrival confirmation, inside its budget. */
  lemma HealthyMoveArrives(m0: Move, step: real) returns (n: nat)
    requires Fresh(m0) && step > 0.0
    ensures 1 <= n <= QuietAfter(m0, step) + DEVICE_ARRIVED_CONFIRM_CNT + 1
    ensures !HealthyCalls(m0, step, n - 1).progress.done && HealthyCalls(m0, step, n).progress.done
    ensures var p := HealthyCalls(m0, step, n).progress;
      p.reached > DEVICE_ARRIVED_CONFIRM_CNT && p.used == n <= p.total
  {
    hide QuietAfter, Budget, Travel, AllOnTheWay, InPlaceAt, HealthyCalls;
    QuietFitsBudget(m0, step);
    var last: nat := QuietAfter(m0, step) + DEVICE_ARRIVED_CONFIRM_CNT + 1;
    if !HealthyCalls(m0, step, last).progress.done {
      DoneStays(m0, step, last - 1);
      HealthyState(m0, step, last);
    }
    n := GoesOnUntil(m0, step, last);
    HealthyState(m0, step, n);
  }

  /** While the move goes on, the command of every joint runs straight home, one step a call,
      never crossing it, and stays there once it has arrived. */
  lemma HealthyCommandsRunHome(m0: Move, step: real, k: nat, i: nat)
    requires Fresh(m0) && step > 0.0 && k >= 1 && i < |m0.joints|
    requires !HealthyCalls(m0, step, k - 1).progress.done
    ensures |HealthyCalls(m0, step, k).joints| == |m0.joints|
    ensures var j := HealthyCalls(m0, step, k).joints[i]; var from, home := m0.joints[i].pos, m0.joints[i].home;
      && Abs(home - j.prev) == Max(0.0, Abs(home - from) - Part(k as real, step))
      && (from <= home ==> from <= j.prev <= home) && (home <= from ==> home <= j.prev <= from)
      && (step > 0.000000001 && k >= TravelCalls(Abs(home - from), step) ==> j.prev == home)
  {
    hide HealthyCalls, Along, Part, TravelCalls, QuietAfter, Budget, InPlaceAt;
    HealthyState(m0, step, k);
    var from, home := m0.joints[i].pos, m0.joints[i].home;
    GapClosed(from, home, step, k);
    if step > 0.000000001 && k >= TravelCalls(Abs(home - from), step) {
      TravelSuffices(Abs(home - from), step, k);
    }
  }

  predicate EveryJointInPlace(m: Move) {
    forall i :: 0 <= i < |m.joints| ==> !Outside(m.joints[i])
  }

  /** The healthy moves that bring every joint within tolerance of home: all of them, when one
      step is at least the motion floor of the stuck check; below that floor, only the moves
      short enough to be over before the joints are taken for stuck. */
  lemma HealthyMoveEndsInPlace(m0: Move, step: real, n: nat)
    requires Fresh(m0) && step > 0.0 && n >= 1
    requires !HealthyCalls(m0, step, n - 1).progress.done && HealthyCalls(m0, step, n).progress.done
    ensures EveryJointInPlace(HealthyCalls(m0, step, n)) <==>
      || step >= READY_MOVE_STUCK_POS_DELTA_RAD
      || forall i :: 0 <= i < |m0.joints| ==>
           Abs(m0.joints[i].home - m0.joints[i].pos)
             <= m0.joints[i].margin + READY_MOVE_TOLERANCE_HYSTERESIS_RAD + 230.0 * step
  {
    hide HealthyCalls, OnTheWay, Outside, QuietAfter, Budget, GapOf, Part;
    HealthyState(m0, step, n);
    var m := HealthyCalls(m0, step, n);
    LastCallIsEarly(m0, step, n);
    forall i | 0 <= i < |m0.joints|
      ensures Outside(m.joints[i]) <==>
        GapOf(m0.joints[i], step, n - 1) > m0.joints[i].margin + READY_MOVE_TOLERANCE_HYSTERESIS_RAD
      ensures GapOf(m0.joints[i], step, n - 1) <= GapOf(m0.joints[i], step, n - 1 - DEVICE_ARRIVED_CONFIRM_CNT)
      ensures GapOf(m0.joints[i], step, n - 1)
        == Max(0.0, Abs(m0.joints[i].home - m0.joints[i].pos) - Part((n - 1) as real, step))
    {
      InPlaceAfter(m0.joints[i], m.joints[i], step, n);
    }
    if step < READY_MOVE_STUCK_POS_DELTA_RAD {
      UpTo230(n - 1, step);
    }
  }

  lemma UpTo230(k: nat, step: real)
    requires step > 0.0 && k <= 230
    ensures Part(k as real, step) <= 230.0 * step
    ensures k == 230 ==> Part(k as real, step) == 230.0 * step
  {
    MulMono(k as real, 230.0, step);
  }

  lemma LastCallIsEarly(m0: Move, step: real, n: nat)
    requires Fresh(m0) && step > 0.0 && n >= 1
    requires !HealthyCalls(m0, step, n - 1).progress.done
    ensures step < READY_MOVE_STUCK_POS_DELTA_RAD ==> n - 1 <= 230
  {
    hide HealthyCalls, AllOnTheWay, Budget, InPlaceAt;
    if n > 1 {
      if HealthyCalls(m0, step, n - 2).progress.done {
        DoneStays(m0, step, n - 2);
      } else {
        HealthyState(m0, step, n - 1);
      }
    }
  }

  lemma InPlaceAfter(j0: Joint, j: Joint, step: real, n: nat)
    requires step > 0.0 && n >= 1 && OnTheWay(j0, j, step, n)
    ensures Outside(j) <==> GapOf(j0, step, n - 1) > j0.margin + READY_MOVE_TOLERANCE_HYSTERESIS_RAD
    ensures n > DEVICE_ARRIVED_CONFIRM_CNT ==>
      GapOf(j0, step, n - 1) <= GapOf(j0, step, n - 1 - DEVICE_ARRIVED_CONFIRM_CNT)
    ensures GapOf(j0, step, n - 1) == Max(0.0, Abs(j0.home - j0.pos) - Part((n - 1) as real, step))
  {
    hide Along, Part;
    AlongNext(j0, step, n - 1);
    GapClosed(j0.pos, j0.home, step, n - 1);
    if n > DEVICE_ARRIVED_CONFIRM_CNT {
      GapShrinks(j0.pos, j0.home, step, n - 1 - DEVICE_ARRIVED_CONFIRM_CNT, n - 1);
    }
  }
}
