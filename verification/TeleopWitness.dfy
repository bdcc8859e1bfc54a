/** The engagement protocol is not vacuous: a run in which a pair becomes engaged, one in which a
    session then closes it, and one that ends with a follower that is not held. */
module TeleopWitness {
  import opened Wrappers
  import opened Engagement
  import opened Teleop

  function Last(states: seq<State>): State
    requires states != []
  {
    states[|states| - 1]
  }

  lemma Extend(states: seq<State>, a: Action) returns (longer: seq<State>)
    requires Behavior(states) && Possible(Last(states), a)
    ensures Behavior(longer) && longer == states + [Next(Last(states), a)]
  {
    longer := states + [Next(Last(states), a)];
    assert StepsTo(Last(states), Next(Last(states), a));
    forall k | 0 <= k < |longer| - 1 ensures StepsTo(longer[k], longer[k + 1]) {
      if k < |states| - 1 {
        assert StepsTo(states[k], states[k + 1]);
      }
    }
  }

  /** One thread, at `pc`, engaging a pair of connected arms undisturbed, with the cleanup lock and
      the arms' locks as they are at this point. */
  predicate Undisturbed(s: State, pc: Pc, locked: nat) {
    && 0 in s.threads && s.threads[0] == pc && !s.pair.alignCancel && ArmsAreCurrent(s)
    && (s.cleanup.Some? <==> locked >= 1) && (s.leaderLock.Some? <==> locked >= 2)
    && (s.followerLock.Some? <==> locked >= 3)
  }

  const Fine := Choice(true, true, true, 1, 1)

  /** Where an undisturbed thread goes next. */
  function Onward(pc: Pc): Pc {
    match pc
    case Align(step) =>
      (match step
       case Pause => Align(CheckCancel(ToFloat))
       case Float => Align(CheckCancel(ToValidate))
       case Validate => Align(CheckCancel(ToTop))
       case Sample => Align(CheckCancel(ToCompare))
       case Compare => Align(CheckCancel(ToEnable))
       case Command => Align(CheckCancel(ToTop))
       case CheckCancel(next) => Align(CheckArms(next))
       case CheckArms(next) => After(next)
       case CancelSeen => pc)
    case EnableWait => EnableWantLeader
    case EnableWantLeader => EnableWantFollower
    case EnableWantFollower => Enable(LockedCheckCancel)
    case Enable(step) =>
      (match step
       case LockedCheckCancel => Enable(LockedCheckArms)
       case LockedCheckArms => Enable(Feedback)
       case Feedback => Enable(ArmsAfterFeedback)
       case ArmsAfterFeedback => Enable(Resume)
       case Resume => Enable(ArmsAfterResume)
       case ArmsAfterResume => Enable(MarkEngaged)
       case _ => Enable(Unlock(true)))
    case _ => pc
  }

  predicate OnTheWay(pc: Pc) {
    || (pc.Align? && !pc.step.CancelSeen?) || pc.EnableWait? || pc.EnableWantLeader? || pc.EnableWantFollower?
    || (pc.Enable? && !pc.locked.LockedCancelSeen? && !pc.locked.Unlock?)
  }

  function LocksOf(pc: Pc): nat {
    if pc.EnableWantLeader? then 1 else if pc.EnableWantFollower? then 2 else if pc.Enable? then 3 else 0
  }

  lemma Advance(states: seq<State>, pc: Pc) returns (longer: seq<State>)
    requires Behavior(states) && OnTheWay(pc) && Undisturbed(Last(states), pc, LocksOf(pc))
    ensures Behavior(longer) && Undisturbed(Last(longer), Onward(pc), LocksOf(Onward(pc)))
    ensures Last(longer).threads.Keys == Last(states).threads.Keys
    ensures pc == Enable(MarkEngaged) ==> Last(longer).pair.engaged
  {
    longer := Extend(states, Run(0, Fine));
  }

  /** How many steps are left until the pair is marked. */
  function Ahead(pc: Pc): nat {
    match pc
    case Align(step) =>
      (match step
       case Pause => 26
       case Float => 23
       case Validate => 20
       case Command => 20
       case Sample => 15
       case Compare => 12
       case CheckCancel(next) => Entry(next) + 2
       case CheckArms(next) => Entry(next) + 1
       case CancelSeen => 0)
    case EnableWait => 9
    case EnableWantLeader => 8
    case EnableWantFollower => 7
    case Enable(step) =>
      (match step
       case LockedCheckCancel => 6
       case LockedCheckArms => 5
       case Feedback => 4
       case ArmsAfterFeedback => 3
       case Resume => 2
       case ArmsAfterResume => 1
       case _ => 0)
    case _ => 0
  }

  function Entry(next: AlignPoint): nat {
    match next
    case ToFloat => 23
    case ToValidate => 20
    case ToTop => 17
    case ToSample => 15
    case ToCompare => 12
    case ToEnable => 9
  }

  /** From the admission on, the thread gets to every later point. */
  lemma {:induction false} GoesOn(states: seq<State>, pc: Pc, rest: nat) returns (longer: seq<State>, later: Pc)
    requires Behavior(states) && OnTheWay(pc) && Undisturbed(Last(states), pc, LocksOf(pc)) && rest <= Ahead(pc)
    ensures Behavior(longer) && Last(longer).threads.Keys == Last(states).threads.Keys
    ensures OnTheWay(later) && Undisturbed(Last(longer), later, LocksOf(later)) && Ahead(later) == rest
    decreases Ahead(pc)
  {
    hide Behavior, Undisturbed;
    longer, later := states, pc;
    if rest < Ahead(pc) {
      longer := Advance(states, pc);
      longer, later := GoesOn(longer, Onward(pc), rest);
    }
  }

  /** A run in which the pair has just been admitted. */
  lemma Admittance() returns (states: seq<State>)
    ensures Behavior(states) && Undisturbed(Last(states), Align(Pause), 0) && Last(states).threads.Keys == {0}
  {
    var start := State(Pair(false, false, false, 0, None, false, false), Leader(0, false, false),
                       Follower(0, false, false, false, false), None, None, None, None, 0, map[]);
    states := [start];
    states := Extend(states, LeaderRenews(true));
    states := Extend(states, FollowerRenews(true));
    states := Extend(states, Call(0, CallEngage));
    states := Extend(states, Run(0, Fine));
    states := Extend(states, Run(0, Fine));
  }

  /** There is a run in which the pair becomes engaged. */
  lemma EngagedIsReachable() returns (states: seq<State>)
    ensures Behavior(states) && states != [] && Last(states).pair.engaged && Last(states).threads.Keys == {0}
    ensures Undisturbed(Last(states), Enable(Unlock(true)), 3)
  {
    hide Behavior, Undisturbed;
    var pc;
    states := Admittance();
    states, pc := GoesOn(states, Align(Pause), 0);
    states := Advance(states, pc);
  }

  // ----- closing it -----

  /** No call of a rollback has failed so far. */
  predicate Spotless(pc: Pc) {
    pc.Cleaning? ==>
      match pc.clean
      case HoldFollower(failed) => !failed
      case ReleaseFollower(failed) => !failed
      case WantLeader(failed) => !failed
      case CheckLeader(failed) => !failed
      case FloatLeader(failed) => !failed
      case ReleaseLeader(failed) => !failed
      case Settle(failed) => !failed
      case _ => true
  }

  /** Thread `t`, at `pc`, disengaging a pair of connected arms with every lock free that it does
      not hold itself. */
  predicate Undoing(s: State, t: Thread, pc: Pc) {
    && t in s.threads && s.threads[t] == pc && ArmsAreCurrent(s) && Spotless(pc)
    && (s.cleanup.Some? <==> HoldsCleanup(pc)) && (s.leaderLock.Some? <==> HoldsLeader(pc))
    && (s.followerLock.Some? <==> HoldsFollower(pc))
    && (Seen(pc).Some? ==> Seen(pc).value == s.pair.generation) && (Decided(pc) ==> !s.pair.needsRollback)
  }

  predicate InDisengage(pc: Pc) {
    pc.ReadGeneration? || pc.Cancelling? || (CallerOf(pc).Some? && CallerOf(pc).value.FromDisengage?)
  }

  /** How many steps are left until the disengage returns. */
  function Remaining(pc: Pc): nat {
    match pc
    case ReadGeneration => 14
    case Cancelling(_) => 13
    case RollbackWait(_) => 12
    case RollbackHeld(_) => 11
    case Cleaning(_, _, step) =>
      (match step
       case WantFollower => 10 case CheckFollower => 9 case PauseFollower => 8 case HoldFollower(_) => 7
       case ReleaseFollower(_) => 6 case WantLeader(_) => 5 case CheckLeader(_) => 4 case FloatLeader(_) => 3
       case ReleaseLeader(_) => 2 case Settle(_) => 1)
    case _ => 0
  }

  predicate OthersStay(s: State, s': State, t: Thread) {
    forall u :: u in s.threads && u != t ==> u in s'.threads && s'.threads[u] == s.threads[u]
  }

  lemma Undo(states: seq<State>, t: Thread, pc: Pc) returns (longer: seq<State>, next: Pc)
    requires Behavior(states) && InDisengage(pc) && Undoing(Last(states), t, pc)
    ensures Behavior(longer) && states <= longer && Undoing(Last(longer), t, next)
    ensures OthersStay(Last(states), Last(longer), t)
    ensures next.Disengaged? || (InDisengage(next) && Remaining(next) < Remaining(pc))
  {
    hide Possible, Next, Undoing, ArmsAreCurrent;
    if pc.Cleaning? {
      if AtFollower(pc.clean) {
        FollowerCleaning(Last(states), t, pc);
      } else if pc.clean.Settle? {
        SettlingGoesOn(Last(states), t, pc);
      } else {
        LeaderCleaning(Last(states), t, pc);
      }
    } else {
      UndoGoesOn(Last(states), t, pc);
    }
    longer := Extend(states, Run(t, Fine));
    next := Last(longer).threads[t];
  }

  predicate GoesNearer(s: State, t: Thread, pc: Pc) {
    && Possible(s, Run(t, Fine))
    && var s' := Next(s, Run(t, Fine));
      && t in s'.threads && Undoing(s', t, s'.threads[t]) && OthersStay(s, s', t)
      && (s'.threads[t].Disengaged? || (InDisengage(s'.threads[t]) && Remaining(s'.threads[t]) < Remaining(pc)))
  }

  /** The part of a rollback that sees to the follower. */
  predicate AtFollower(step: RollbackStep) {
    step.WantFollower? || step.CheckFollower? || step.PauseFollower? || step.HoldFollower? || step.ReleaseFollower?
  }

  lemma FollowerCleaning(s: State, t: Thread, pc: Pc)
    requires InDisengage(pc) && Undoing(s, t, pc) && pc.Cleaning? && AtFollower(pc.clean)
    ensures GoesNearer(s, t, pc)
  {
    hide AlignNext, EnableNext, BeginStep, RollbackNext;
  }

  lemma LeaderCleaning(s: State, t: Thread, pc: Pc)
    requires InDisengage(pc) && Undoing(s, t, pc) && pc.Cleaning? && !AtFollower(pc.clean) && !pc.clean.Settle?
    ensures GoesNearer(s, t, pc)
  {
    hide AlignNext, EnableNext, BeginStep, RollbackNext;
  }

  lemma SettlingGoesOn(s: State, t: Thread, pc: Pc)
    requires InDisengage(pc) && Undoing(s, t, pc) && pc.Cleaning? && pc.clean.Settle?
    ensures GoesNearer(s, t, pc)
  {
    hide AlignNext, EnableNext, BeginStep, RollbackNext;
  }

  lemma UndoGoesOn(s: State, t: Thread, pc: Pc)
    requires InDisengage(pc) && Undoing(s, t, pc) && !pc.Cleaning?
    ensures GoesNearer(s, t, pc)
  {
  }

  lemma {:induction false} Disengages(states: seq<State>, t: Thread, pc: Pc) returns (longer: seq<State>, end: Pc)
    requires Behavior(states) && InDisengage(pc) && Undoing(Last(states), t, pc)
    ensures Behavior(longer) && states <= longer && end.Disengaged? && Undoing(Last(longer), t, end)
    ensures OthersStay(Last(states), Last(longer), t)
    decreases Remaining(pc)
  {
    hide Behavior, InDisengage, Undoing;
    longer, end := Undo(states, t, pc);
    if !end.Disengaged? {
      longer, end := Disengages(longer, t, end);
    }
  }

  predicate NoLocks(s: State) {
    ArmsAreCurrent(s) && s.cleanup.None? && s.leaderLock.None? && s.followerLock.None?
  }

  /** A pair is engaged, and the engaging thread is done. */
  lemma EngagedAndFree() returns (states: seq<State>, engaged: nat)
    ensures Behavior(states) && engaged < |states| - 1 && states[engaged].pair.engaged
    ensures NoLocks(Last(states)) && Last(states).threads.Keys == {0}
  {
    hide Behavior;
    states := EngagedIsReachable();
    engaged := |states| - 1;
    var prefix := states;
    states := Extend(states, Run(0, Fine));
    states := Extend(states, Run(0, Fine));
    assert states[engaged] == prefix[engaged];
  }

  /** Then it is blocked by thread 1. */
  lemma EngagedThenBlocked() returns (states: seq<State>, engaged: nat)
    ensures Behavior(states) && engaged < |states| - 1 && states[engaged].pair.engaged
    ensures var s := Last(states);
      1 in s.threads && s.threads[1] == Blocked(s.gate) && 2 !in s.threads && NoLocks(s)
  {
    hide Behavior;
    states, engaged := EngagedAndFree();
    var prefix := states;
    states := Extend(states, Call(1, CallBlock));
    states := Extend(states, Run(1, Fine));
    states := Extend(states, Run(1, Fine));
    assert states[engaged] == prefix[engaged];
  }

  /** And then disengaged by thread 2. */
  lemma EngagedThenClosed() returns (states: seq<State>, engaged: nat, blocked: nat, gate: nat, seen: nat)
    ensures Behavior(states) && engaged < blocked < |states| && states[engaged].pair.engaged
    ensures var s := states[blocked]; 1 in s.threads && s.threads[1] == Blocked(gate) && 2 !in s.threads
    ensures 2 in Last(states).threads && Last(states).threads[2] == Disengaged(seen)
  {
    hide Behavior;
    states, engaged := EngagedThenBlocked();
    blocked, gate := |states| - 1, Last(states).gate;
    var prefix := states;
    states := Extend(states, Call(2, CallDisengage));
    var end;
    states, end := Disengages(states, 2, ReadGeneration);
    seen := end.seen;
    assert states[blocked] == prefix[blocked] && states[engaged] == prefix[engaged];
  }

  // ----- a command that was sent although it raised -----

  const Raises := Choice(false, true, false, 0, 0)

  /** Thread 0 is about to send an alignment command while thread 1 disengages the pair. */
  lemma DisengagedWhileAligning() returns (states: seq<State>)
    ensures Behavior(states) && var s := Last(states);
      && 0 in s.threads && s.threads[0] == Align(Command) && ArmsAreCurrent(s)
      && s.cleanup.None? && !s.pair.needsRollback
  {
    hide Behavior;
    var pc;
    states := Admittance();
    states, pc := GoesOn(states, Align(Pause), 12);
    assert pc == Align(Compare);
    states := Extend(states, Run(0, Choice(true, false, false, 0, 0)));
    states := Extend(states, Call(1, CallDisengage));
    states, pc := Disengages(states, 1, ReadGeneration);
  }

  /** The exception in `QuiescentIsSafe` occurs: everything has returned, no rollback is owed, and
      the follower was last sent a position. */
  lemma StrayCommandIsReachable() returns (states: seq<State>)
    ensures Behavior(states) && var s := Last(states);
      && !s.pair.engageInProgress && s.cleanup.None? && !s.pair.needsRollback && !s.pair.engaged
      && ArmsAreCurrent(s) && s.follower.stray && !s.follower.held
  {
    hide Behavior;
    states := DisengagedWhileAligning();
    states := Extend(states, Run(0, Raises));
    states := Extend(states, Run(0, Fine));
    states := Extend(states, Run(0, Fine));
    states := Extend(states, Run(0, Fine));
    if Last(states).pair.engaged {
      EngagedOwesRollback(states, |states| - 1);
    }
  }
}
