/** The engage / disengage / block protocol of a teleoperation pair as interleaved atomic
    steps of any number of threads.  A step is one critical section, one lock operation or
    one message to an arm.  Besides the pair's own fields the state records the last mode
    that was sent to each arm on its current connection. */
module Teleop {
  import opened Wrappers
  import opened Engagement

  type Thread = nat

  // ----- the two arms, as far as the protocol can see them -----

  /** `gravity`: the last mode sent on this connection was gravity compensation. */
  datatype Leader = Leader(generation: nat, connected: bool, gravity: bool)

  /** `live`: the last pause/resume sent was a resume.  `held`: a hold was sent while live input was
      paused, and since then neither was it resumed nor a position command sent.  `stray`: a position
      command that was sent although the call raised has not been followed by a hold. */
  datatype Follower = Follower(generation: nat, connected: bool, live: bool, held: bool, stray: bool)

  function SendPause(f: Follower): Follower { f.(live := false) }
  function SendResume(f: Follower): Follower { f.(live := true, held := false) }
  function SendHold(f: Follower): Follower { f.(held := !f.live, stray := false) }
  function SendPosition(f: Follower): Follower { f.(held := false) }
  function SendStray(f: Follower): Follower { f.(held := false, stray := true) }
  function SendGravity(l: Leader): Leader { l.(gravity := true) }
  function SendBilateral(l: Leader): Leader { l.(gravity := false) }

  // ----- program counters -----

  /** Where `_align` continues after a cancellation check. */
  datatype AlignPoint = ToFloat | ToValidate | ToTop | ToSample | ToCompare | ToEnable

  datatype AlignStep =
    | Pause | Float | Validate | Sample | Compare | Command
    | CheckCancel(next: AlignPoint) | CheckArms(next: AlignPoint) | CancelSeen

  /** `_enable`, once the cleanup lock and both lifecycle locks are held. */
  datatype EnableStep =
    | LockedCheckCancel | LockedCancelSeen | LockedCheckArms
    | Feedback | ArmsAfterFeedback | Resume | ArmsAfterResume | MarkEngaged | Unlock(marked: bool)

  /** Who called `_rollback`: an engage on its way out, or a disengage of a generation. */
  datatype Caller = FromEngage | FromDisengage(seen: nat)

  datatype RollbackStep =
    | WantFollower | CheckFollower | PauseFollower | HoldFollower(failed: bool) | ReleaseFollower(failed: bool)
    | WantLeader(failed: bool) | CheckLeader(failed: bool) | FloatLeader(failed: bool) | ReleaseLeader(failed: bool)
    | Settle(failed: bool)

  datatype Pc =
    | BeginWait | BeginHeld
    | Align(step: AlignStep)
    | EnableWait | EnableWantLeader | EnableWantFollower
    | Enable(locked: EnableStep)
    | Finishing
    | ReadGeneration | Cancelling(seen: nat)
    | RollbackWait(caller: Caller) | RollbackHeld(caller: Caller)
    | Cleaning(caller: Caller, arms: (nat, nat), clean: RollbackStep)
    | Blocking | BlockWait(gate: nat)
    | Disengaged(seen: nat)   // `disengage()` has returned; it had read generation `seen`
    | Blocked(gate: nat)      // `_block_engagement()` has returned, at gate number `gate`
    | Returned

  /** What the environment decides in a step: whether a call succeeds, whether a failing
      call had already taken effect, which way `_align` goes, and captured generations. */
  datatype Choice = Choice(ok: bool, sent: bool, leave: bool, generation: nat, followerGeneration: nat)

  datatype State = State(
    pair: Pair,
    leader: Leader,
    follower: Follower,
    cleanup: Option<Thread>,        // holder of the cleanup lock
    leaderLock: Option<Thread>,     // holders of the arms' lifecycle locks
    followerLock: Option<Thread>,
    owner: Option<Thread>,          // the thread whose engage() is in progress
    gate: nat,                      // number of `_allow_engagement()` calls so far
    threads: map<Thread, Pc>)

  function PcOf(s: State, t: Option<Thread>): Pc {
    if t.Some? && t.value in s.threads then s.threads[t.value] else Returned
  }

  function Goto(s: State, t: Thread, pc: Pc): State { s.(threads := s.threads[t := pc]) }

  function ArmsAreCurrent(s: State): bool {
    && s.pair.armGenerations.Some?
    && s.leader.generation == s.pair.armGenerations.value.0 && s.leader.connected
    && s.follower.generation == s.pair.armGenerations.value.1 && s.follower.connected
  }

  function Leaving(caller: Caller): Pc {
    match caller
    case FromEngage => Finishing
    case FromDisengage(seen) => Disengaged(seen)
  }

  // ----- one step of each kind -----

  function After(next: AlignPoint): Pc {
    match next
    case ToFloat => Align(Float)
    case ToValidate => Align(Validate)
    case ToTop => Align(CheckCancel(ToSample))
    case ToSample => Align(Sample)
    case ToCompare => Align(Compare)
    case ToEnable => EnableWait
  }

  const GiveUp := RollbackWait(FromEngage)

  function BeginStep(s: State, t: Thread, c: Choice): State
    requires t in s.threads
  {
    if s.threads[t] == BeginWait then Goto(s.(cleanup := Some(t)), t, BeginHeld)
    else
      match Decide(s.pair, s.leader.connected, s.follower.connected)
      case Rejected => Goto(s.(cleanup := None), t, ReadGeneration)
      case AlreadyAdmitted => Goto(s.(cleanup := None), t, if c.ok then Returned else ReadGeneration)
      case Admitted =>
        if c.ok then
          Goto(s.(pair := Admit(s.pair, c.generation, c.followerGeneration), cleanup := None, owner := Some(t)),
               t, Align(Pause))
        else Goto(s.(cleanup := None), t, ReadGeneration)
  }

  function AlignNext(s: State, t: Thread, step: AlignStep, c: Choice): State {
    match step
    case Pause =>
      Goto(if c.ok || c.sent then s.(follower := SendPause(s.follower)) else s, t,
           if c.ok then Align(CheckCancel(ToFloat)) else GiveUp)
    case Float =>
      Goto(if c.ok || c.sent then s.(leader := SendGravity(s.leader)) else s, t,
           if c.ok then Align(CheckCancel(ToValidate)) else GiveUp)
    case Validate => Goto(s, t, if c.ok then Align(CheckCancel(ToTop)) else GiveUp)
    case Sample => Goto(s, t, if c.ok then Align(CheckCancel(ToCompare)) else GiveUp)
    case Compare =>
      Goto(s, t, if !c.ok then GiveUp else if c.leave then Align(CheckCancel(ToEnable)) else Align(Command))
    case Command =>
      if c.ok then Goto(s.(follower := SendPosition(s.follower)), t, Align(CheckCancel(ToTop)))
      else Goto(if c.sent then s.(follower := SendStray(s.follower)) else s, t, GiveUp)
    case CheckCancel(next) =>
      Goto(s, t, if s.pair.alignCancel then Align(CancelSeen) else Align(CheckArms(next)))
    case CheckArms(next) => Goto(s, t, if ArmsAreCurrent(s) then After(next) else GiveUp)
    case CancelSeen => Goto(s.(pair := Owe(s.pair)), t, GiveUp)
  }

  function EnableNext(s: State, t: Thread, step: EnableStep, c: Choice): State {
    match step
    case LockedCheckCancel =>
      Goto(s, t, Enable(if s.pair.alignCancel then LockedCancelSeen else LockedCheckArms))
    case LockedCancelSeen => Goto(s.(pair := Owe(s.pair)), t, Enable(Unlock(false)))
    case LockedCheckArms => Goto(s, t, Enable(if ArmsAreCurrent(s) then Feedback else Unlock(false)))
    case Feedback =>
      Goto(if c.ok || c.sent then s.(leader := SendBilateral(s.leader)) else s, t,
           Enable(if c.ok then ArmsAfterFeedback else Unlock(false)))
    case ArmsAfterFeedback => Goto(s, t, Enable(if ArmsAreCurrent(s) then Resume else Unlock(false)))
    case Resume =>
      Goto(if c.ok || c.sent then s.(follower := SendResume(s.follower)) else s, t,
           Enable(if c.ok then ArmsAfterResume else Unlock(false)))
    case ArmsAfterResume => Goto(s, t, Enable(if ArmsAreCurrent(s) then MarkEngaged else Unlock(false)))
    case MarkEngaged =>
      if ArmsAreCurrent(s) then Goto(s.(pair := Mark(s.pair)), t, Enable(Unlock(true)))
      else Goto(s, t, Enable(Unlock(false)))
    case Unlock(marked) =>
      Goto(s.(cleanup := None, leaderLock := None, followerLock := None), t, if marked then Finishing else GiveUp)
  }

  function CleanNext(s: State, t: Thread, caller: Caller, arms: (nat, nat), step: RollbackStep, c: Choice): State {
    match step
    case WantFollower => Goto(s.(followerLock := Some(t)), t, Cleaning(caller, arms, CheckFollower))
    case CheckFollower =>
      Goto(s, t, Cleaning(caller, arms,
        if s.follower.generation == arms.1 && s.follower.connected then PauseFollower else ReleaseFollower(false)))
    case PauseFollower =>
      Goto(if c.ok || c.sent then s.(follower := SendPause(s.follower)) else s, t,
           Cleaning(caller, arms, HoldFollower(!c.ok)))
    case HoldFollower(failed) =>
      Goto(if c.ok || c.sent then s.(follower := SendHold(s.follower)) else s, t,
           Cleaning(caller, arms, ReleaseFollower(failed || !c.ok)))
    case ReleaseFollower(failed) => Goto(s.(followerLock := None), t, Cleaning(caller, arms, WantLeader(failed)))
    case WantLeader(failed) => Goto(s.(leaderLock := Some(t)), t, Cleaning(caller, arms, CheckLeader(failed)))
    case CheckLeader(failed) =>
      Goto(s, t, Cleaning(caller, arms,
        if s.leader.generation == arms.0 && s.leader.connected then FloatLeader(failed) else ReleaseLeader(failed)))
    case FloatLeader(failed) =>
      Goto(if c.ok || c.sent then s.(leader := SendGravity(s.leader)) else s, t,
           Cleaning(caller, arms, ReleaseLeader(failed || !c.ok)))
    case ReleaseLeader(failed) => Goto(s.(leaderLock := None), t, Cleaning(caller, arms, Settle(failed)))
    case Settle(failed) =>
      Goto(s.(pair := if failed then Owe(s.pair) else s.pair, cleanup := None), t, Leaving(caller))
  }

  function Expected(caller: Caller): Option<nat> {
    match caller
    case FromEngage => None
    case FromDisengage(seen) => Some(seen)
  }

  function RollbackNext(s: State, t: Thread, caller: Caller): State {
    if !RollbackDue(s.pair, Expected(caller)) then Goto(s.(cleanup := None), t, Leaving(caller))
    else if s.pair.armGenerations.None? then
      Goto(s.(pair := TakeRollback(s.pair), cleanup := None), t, Leaving(caller))
    else
      Goto(s.(pair := TakeRollback(s.pair)), t, Cleaning(caller, s.pair.armGenerations.value, WantFollower))
  }

  /** The step of thread `t`. */
  function ThreadNext(s: State, t: Thread, c: Choice): State
    requires t in s.threads
  {
    match s.threads[t]
    case BeginWait => BeginStep(s, t, c)
    case BeginHeld => BeginStep(s, t, c)
    case Align(step) => AlignNext(s, t, step, c)
    case EnableWait => Goto(s.(cleanup := Some(t)), t, EnableWantLeader)
    case EnableWantLeader => Goto(s.(leaderLock := Some(t)), t, EnableWantFollower)
    case EnableWantFollower => Goto(s.(followerLock := Some(t)), t, Enable(LockedCheckCancel))
    case Enable(step) => EnableNext(s, t, step, c)
    case Finishing => Goto(s.(pair := Finish(s.pair), owner := None), t, Returned)
    case ReadGeneration => Goto(s, t, Cancelling(s.pair.generation))
    case Cancelling(seen) => Goto(s.(pair := Cancel(s.pair)), t, RollbackWait(FromDisengage(seen)))
    case RollbackWait(caller) => Goto(s.(cleanup := Some(t)), t, RollbackHeld(caller))
    case RollbackHeld(caller) => RollbackNext(s, t, caller)
    case Cleaning(caller, arms, step) => CleanNext(s, t, caller, arms, step, c)
    case Blocking => Goto(s.(pair := Block(s.pair)), t, BlockWait(s.gate))
    case BlockWait(gate) => Goto(s, t, Blocked(gate))
    case Disengaged(_) => s
    case Blocked(_) => s
    case Returned => s
  }

  /** Lock operations wait until the lock is free; a call succeeds only on a live connection;
      a captured generation is one the arm has had. */
  predicate CanStep(s: State, t: Thread, c: Choice) {
    && t in s.threads
    && match s.threads[t]
       case BeginWait => s.cleanup.None?
       case BeginHeld => c.generation <= s.leader.generation && c.followerGeneration <= s.follower.generation
       case Align(step) =>
         (step.Float? && (c.ok || c.sent) ==> s.leader.connected)
         && ((step.Pause? || step.Command?) && (c.ok || c.sent) ==> s.follower.connected)
       case EnableWait => s.cleanup.None?
       case EnableWantLeader => s.leaderLock.None?
       case EnableWantFollower => s.followerLock.None?
       case Enable(step) =>
         (step.Feedback? && (c.ok || c.sent) ==> s.leader.connected)
         && (step.Resume? && (c.ok || c.sent) ==> s.follower.connected)
       case RollbackWait(_) => s.cleanup.None?
       case Cleaning(_, _, step) =>
         (step.WantFollower? ==> s.followerLock.None?)
         && (step.WantLeader? ==> s.leaderLock.None?)
         && (step.FloatLeader? && (c.ok || c.sent) ==> s.leader.connected)
         && ((step.PauseFollower? || step.HoldFollower?) && (c.ok || c.sent) ==> s.follower.connected)
       case BlockWait(_) => s.cleanup.None?
       case Disengaged(_) => false
       case Blocked(_) => false
       case Returned => false
       case _ => true
  }

  // ----- the whole system -----

  datatype Operation = CallEngage | CallDisengage | CallBlock

  datatype Action =
    | Call(t: Thread, operation: Operation)   // a new thread enters one of the operations
    | Run(t: Thread, c: Choice)
    | CancelEngage | AllowEngagement
    | LeaderDies | FollowerDies               // a native process stops
    | LeaderRenews(up: bool) | FollowerRenews(up: bool)   // connect() or close() of an arm

  predicate Possible(s: State, a: Action) {
    match a
    case Call(t, _) => t !in s.threads
    case Run(t, c) => CanStep(s, t, c)
    case CancelEngage => true
    case AllowEngagement => true
    case LeaderDies => true
    case FollowerDies => true
    case LeaderRenews(up) => s.leaderLock.None? && (up ==> !s.leader.connected)
    case FollowerRenews(up) => s.followerLock.None? && (up ==> !s.follower.connected)
  }

  function Next(s: State, a: Action): State
    requires Possible(s, a)
  {
    match a
    case Call(t, operation) =>
      Goto(s, t,
           match operation case CallEngage => BeginWait case CallDisengage => ReadGeneration case CallBlock => Blocking)
    case Run(t, c) => ThreadNext(s, t, c)
    case CancelEngage => s.(pair := Cancel(s.pair))
    case AllowEngagement => s.(pair := Allow(s.pair), gate := s.gate + 1)
    case LeaderDies => s.(leader := s.leader.(connected := false))
    case FollowerDies => s.(follower := s.follower.(connected := false))
    case LeaderRenews(up) => s.(leader := Leader(s.leader.generation + 1, up, false))
    case FollowerRenews(up) => s.(follower := Follower(s.follower.generation + 1, up, true, false, false))
  }

  predicate Initial(s: State) {
    && s.pair == Pair(false, false, false, 0, None, false, false) && !s.follower.stray
    && s.cleanup == s.leaderLock == s.followerLock == s.owner == None
    && s.threads == map[]
  }

  /** Every interleaving: the states of a run. */
  ghost predicate Behavior(states: seq<State>) {
    && states != [] && Initial(states[0])
    && forall k :: 0 <= k < |states| - 1 ==> StepsTo(states[k], states[k + 1])
  }

  ghost predicate StepsTo(s: State, s': State) {
    exists a :: Possible(s, a) && Next(s, a) == s'
  }

  // ----- what the program counters mean -----

  predicate HoldsCleanup(pc: Pc) {
    pc.BeginHeld? || pc.EnableWantLeader? || pc.EnableWantFollower? || pc.Enable? || pc.RollbackHeld? || pc.Cleaning?
  }

  predicate HoldsLeader(pc: Pc) {
    || pc.EnableWantFollower? || pc.Enable?
    || (pc.Cleaning? && (pc.clean.CheckLeader? || pc.clean.FloatLeader? || pc.clean.ReleaseLeader?))
  }

  predicate HoldsFollower(pc: Pc) {
    || pc.Enable?
    || (pc.Cleaning? && (pc.clean.CheckFollower? || pc.clean.PauseFollower? || pc.clean.HoldFollower?
                         || pc.clean.ReleaseFollower?))
  }

  function CallerOf(pc: Pc): Option<Caller> {
    match pc
    case RollbackWait(caller) => Some(caller)
    case RollbackHeld(caller) => Some(caller)
    case Cleaning(caller, _, _) => Some(caller)
    case _ => None
  }

  /** The admitted engage has not finished. */
  predicate Owns(pc: Pc) {
    || pc.Align? || pc.EnableWait? || pc.EnableWantLeader? || pc.EnableWantFollower? || pc.Enable? || pc.Finishing?
    || CallerOf(pc) == Some(FromEngage)
  }

  /** The engage may still succeed. */
  predicate Hopeful(pc: Pc) {
    || (pc.Align? && !pc.step.CancelSeen?)
    || pc.EnableWait? || pc.EnableWantLeader? || pc.EnableWantFollower?
    || (pc.Enable? && pc.locked.LockedCheckCancel?)
  }

  /** The engage has passed the last cancellation check and holds the cleanup lock. */
  predicate Committed(pc: Pc) {
    pc.Enable? && !pc.locked.LockedCheckCancel? && !pc.locked.LockedCancelSeen? && !pc.locked.Unlock?
  }

  /** The generation a disengage has read, from that moment on. */
  function Seen(pc: Pc): Option<nat> {
    match pc
    case Cancelling(seen) => Some(seen)
    case Disengaged(seen) => Some(seen)
    case _ => if CallerOf(pc).Some? && CallerOf(pc).value.FromDisengage? then Some(CallerOf(pc).value.seen) else None
  }

  /** The disengage has passed the deciding section of its rollback. */
  predicate Decided(pc: Pc) { pc.Disengaged? || (pc.Cleaning? && pc.caller.FromDisengage?) }

  // ----- the invariant -----

  predicate LeaderSafe(s: State) {
    s.pair.armGenerations.Some? && s.leader.generation == s.pair.armGenerations.value.0 && s.leader.connected
    ==> s.leader.gravity
  }

  predicate FollowerSafe(s: State) {
    s.pair.armGenerations.Some? && s.follower.generation == s.pair.armGenerations.value.1 && s.follower.connected
    ==> !s.follower.live && (s.follower.held || s.follower.stray)
  }

  /** A rollback that still has to bring the follower to safety, or knows that it failed. */
  predicate FollowerOwed(pc: Pc) {
    pc.Cleaning? &&
    match pc.clean
    case WantFollower => true
    case CheckFollower => true
    case PauseFollower => true
    case HoldFollower(_) => true
    case ReleaseFollower(failed) => failed
    case WantLeader(failed) => failed
    case CheckLeader(failed) => failed
    case FloatLeader(failed) => failed
    case ReleaseLeader(failed) => failed
    case Settle(failed) => failed
  }

  predicate LeaderOwed(pc: Pc) {
    pc.Cleaning? &&
    match pc.clean
    case ReleaseLeader(failed) => failed
    case Settle(failed) => failed
    case _ => true
  }

  /** An alignment command has just gone out and the check behind it is still to come. */
  predicate CheckPending(pc: Pc) {
    pc.Align? && (pc.step == CheckCancel(ToTop) || pc.step.CancelSeen?)
  }

  predicate PairInv(s: State) {
    && (s.follower.stray ==> !s.follower.held)
    && (s.pair.engaged ==> s.pair.needsRollback)
    && (s.pair.engageInProgress <==> s.owner.Some?)
    && (s.owner.Some? ==> s.owner.value in s.threads)
    && (s.cleanup.Some? ==> s.cleanup.value in s.threads)
    && (s.leaderLock.Some? ==> s.leaderLock.value in s.threads)
    && (s.followerLock.Some? ==> s.followerLock.value in s.threads)
    && (s.pair.armGenerations.Some? ==>
          s.pair.armGenerations.value.0 <= s.leader.generation && s.pair.armGenerations.value.1 <= s.follower.generation)
  }

  predicate SafetyInv(s: State) {
    !s.pair.needsRollback ==>
      && (LeaderSafe(s) || LeaderOwed(PcOf(s, s.cleanup)))
      && (FollowerSafe(s) || FollowerOwed(PcOf(s, s.cleanup)) || CheckPending(PcOf(s, s.owner)))
  }

  predicate ThreadInv(s: State, t: Thread, pc: Pc) {
    && (HoldsCleanup(pc) <==> s.cleanup == Some(t))
    && (HoldsLeader(pc) <==> s.leaderLock == Some(t))
    && (HoldsFollower(pc) <==> s.followerLock == Some(t))
    && (Owns(pc) <==> s.owner == Some(t))
    && (Hopeful(pc) ==> s.pair.needsRollback || s.pair.alignCancel)
    && (Committed(pc) ==> s.pair.needsRollback)
    && (pc.Align? && pc.step.CancelSeen? ==> s.pair.alignCancel)
    && (Seen(pc).Some? ==> Seen(pc).value <= s.pair.generation)
    && (CallerOf(pc).Some? && Seen(pc) == Some(s.pair.generation) ==> s.pair.alignCancel)
    && (Decided(pc) && Seen(pc) == Some(s.pair.generation) ==>
          s.pair.alignCancel && !s.pair.engaged && !Committed(PcOf(s, s.owner)))
    && (pc.Cleaning? ==> s.pair.armGenerations == Some(pc.arms))
    && (pc.Cleaning? && pc.clean == HoldFollower(false) ==> !s.follower.live)
    && ((pc.BlockWait? || pc.Blocked?) ==> pc.gate <= s.gate)
    && ((pc.BlockWait? || pc.Blocked?) && pc.gate == s.gate ==> s.pair.blocked && s.pair.alignCancel)
    && (pc.Blocked? && pc.gate == s.gate ==> !Committed(PcOf(s, s.owner)))
  }

  ghost predicate Inv(s: State) {
    && PairInv(s)
    && SafetyInv(s)
    && forall t :: t in s.threads ==> ThreadInv(s, t, s.threads[t])
  }

  lemma InitialInv(s: State)
    requires Initial(s)
    ensures Inv(s)
  {
  }

  // ----- every step keeps the invariant -----

  predicate LockMoves(before: Option<Thread>, after: Option<Thread>, t: Thread) {
    after == before || (before == None && after == Some(t)) || (before == Some(t) && after == None)
  }

  /** What the other threads can rely on when `t` takes a step. */
  predicate Rely(s: State, s': State, t: Thread) {
    && LockMoves(s.cleanup, s'.cleanup, t)
    && LockMoves(s.leaderLock, s'.leaderLock, t)
    && LockMoves(s.followerLock, s'.followerLock, t)
    && LockMoves(s.owner, s'.owner, t)
    && s'.gate == s.gate
    && s.pair.generation <= s'.pair.generation
    && (s.pair.blocked ==> s'.pair.blocked)
    && (s.pair.alignCancel && !s'.pair.alignCancel ==>
          !s.pair.blocked && s.owner == None && s.pair.generation < s'.pair.generation)
    && (s.pair.needsRollback && !s'.pair.needsRollback ==>
          s.cleanup == Some(t) && (s'.pair.alignCancel || s.owner == Some(t)))
    && (s.pair.armGenerations != s'.pair.armGenerations ==> s.cleanup == Some(t))
    && (s'.follower.live && !s.follower.live ==> s.cleanup == Some(t))
    && (s'.pair.generation != s.pair.generation ==> !s.pair.blocked)
    && (s'.pair.engaged && !s.pair.engaged ==> Committed(PcOf(s, s.owner)))
    && (Committed(PcOf(s', s'.owner)) && !Committed(PcOf(s, s.owner)) ==> !s.pair.alignCancel)
  }

  lemma Stable(s: State, s': State, t: Thread, u: Thread, pc: Pc)
    requires u != t && ThreadInv(s, u, pc) && Rely(s, s', t)
    ensures ThreadInv(s', u, pc)
  {
  }

  /** The obligations of the stepping thread itself. */
  ghost predicate Keeps(s: State, s': State, t: Thread) {
    && t in s.threads && s'.threads.Keys == s.threads.Keys
    && (forall u :: u in s.threads && u != t ==> s'.threads[u] == s.threads[u])
    && Rely(s, s', t) && PairInv(s') && SafetyInv(s') && ThreadInv(s', t, s'.threads[t])
  }

  ghost predicate Before(s: State, t: Thread, c: Choice) {
    && CanStep(s, t, c) && PairInv(s) && SafetyInv(s) && ThreadInv(s, t, s.threads[t])
    && (s.owner.Some? ==> ThreadInv(s, s.owner.value, s.threads[s.owner.value]))
  }

  lemma BeginWaitKeeps(s: State, t: Thread, c: Choice)
    requires Before(s, t, c)
    requires s.threads[t].BeginWait?
    ensures Keeps(s, ThreadNext(s, t, c), t)
  {
  }

  lemma AdmitKeeps(s: State, t: Thread, c: Choice)
    requires Before(s, t, c)
    requires s.threads[t].BeginHeld?
    requires Decide(s.pair, s.leader.connected, s.follower.connected) == Admitted && c.ok
    ensures Keeps(s, ThreadNext(s, t, c), t)
  {
  }

  lemma NotAdmittedKeeps(s: State, t: Thread, c: Choice)
    requires Before(s, t, c)
    requires s.threads[t].BeginHeld?
    requires !(Decide(s.pair, s.leader.connected, s.follower.connected) == Admitted && c.ok)
    ensures Keeps(s, ThreadNext(s, t, c), t)
  {
  }

  lemma AlignPauseKeeps(s: State, t: Thread, c: Choice)
    requires Before(s, t, c)
    requires s.threads[t].Align? && s.threads[t].step.Pause?
    ensures Keeps(s, ThreadNext(s, t, c), t)
  {
  }

  lemma AlignFloatKeeps(s: State, t: Thread, c: Choice)
    requires Before(s, t, c)
    requires s.threads[t].Align? && s.threads[t].step.Float?
    ensures Keeps(s, ThreadNext(s, t, c), t)
  {
  }

  lemma AlignReadKeeps(s: State, t: Thread, c: Choice)
    requires Before(s, t, c)
    requires s.threads[t].Align?
    requires s.threads[t].step.Validate? || s.threads[t].step.Sample? || s.threads[t].step.Compare?
    ensures Keeps(s, ThreadNext(s, t, c), t)
  {
  }

  lemma AlignCommandSentKeeps(s: State, t: Thread, c: Choice)
    requires Before(s, t, c)
    requires s.threads[t].Align? && s.threads[t].step.Command?
    requires c.ok
    ensures Keeps(s, ThreadNext(s, t, c), t)
  {
  }

  lemma AlignCommandRaisedKeeps(s: State, t: Thread, c: Choice)
    requires Before(s, t, c)
    requires s.threads[t].Align? && s.threads[t].step.Command?
    requires !c.ok
    ensures Keeps(s, ThreadNext(s, t, c), t)
  {
  }

  lemma AlignCheckKeeps(s: State, t: Thread, c: Choice)
    requires Before(s, t, c)
    requires s.threads[t].Align?
    requires s.threads[t].step.CheckCancel? || s.threads[t].step.CheckArms? || s.threads[t].step.CancelSeen?
    ensures Keeps(s, ThreadNext(s, t, c), t)
  {
  }

  lemma EnableCheckKeeps(s: State, t: Thread, c: Choice)
    requires Before(s, t, c)
    requires s.threads[t].Enable?
    requires var e := s.threads[t].locked; e.LockedCheckCancel? || e.LockedCancelSeen? || e.LockedCheckArms?
    ensures Keeps(s, ThreadNext(s, t, c), t)
  {
  }

  lemma EnableCallKeeps(s: State, t: Thread, c: Choice)
    requires Before(s, t, c)
    requires s.threads[t].Enable?
    requires var e := s.threads[t].locked;
      e.Feedback? || e.ArmsAfterFeedback? || e.Resume? || e.ArmsAfterResume?
    ensures Keeps(s, ThreadNext(s, t, c), t)
  {
  }

  lemma EnableMarkKeeps(s: State, t: Thread, c: Choice)
    requires Before(s, t, c)
    requires s.threads[t].Enable? && (s.threads[t].locked.MarkEngaged? || s.threads[t].locked.Unlock?)
    ensures Keeps(s, ThreadNext(s, t, c), t)
  {
  }

  lemma CleanEnterFollowerKeeps(s: State, t: Thread, c: Choice)
    requires Before(s, t, c)
    requires s.threads[t].Cleaning? && (s.threads[t].clean.WantFollower? || s.threads[t].clean.CheckFollower?)
    ensures Keeps(s, ThreadNext(s, t, c), t)
  {
  }

  lemma CleanPauseKeeps(s: State, t: Thread, c: Choice)
    requires Before(s, t, c)
    requires s.threads[t].Cleaning? && s.threads[t].clean.PauseFollower?
    ensures Keeps(s, ThreadNext(s, t, c), t)
  {
  }

  lemma CleanHoldKeeps(s: State, t: Thread, c: Choice)
    requires Before(s, t, c)
    requires s.threads[t].Cleaning? && s.threads[t].clean.HoldFollower?
    ensures Keeps(s, ThreadNext(s, t, c), t)
  {
  }

  lemma CleanToLeaderKeeps(s: State, t: Thread, c: Choice)
    requires Before(s, t, c)
    requires s.threads[t].Cleaning? && (s.threads[t].clean.ReleaseFollower? || s.threads[t].clean.WantLeader?)
    ensures Keeps(s, ThreadNext(s, t, c), t)
  {
  }

  lemma CleanLeaderKeeps(s: State, t: Thread, c: Choice)
    requires Before(s, t, c)
    requires s.threads[t].Cleaning? && (s.threads[t].clean.CheckLeader? || s.threads[t].clean.FloatLeader?)
    ensures Keeps(s, ThreadNext(s, t, c), t)
  {
  }

  lemma CleanReleaseLeaderKeeps(s: State, t: Thread, c: Choice)
    requires Before(s, t, c)
    requires s.threads[t].Cleaning? && s.threads[t].clean.ReleaseLeader?
    ensures Keeps(s, ThreadNext(s, t, c), t)
  {
  }

  lemma CleanSettleKeeps(s: State, t: Thread, c: Choice)
    requires Before(s, t, c)
    requires s.threads[t].Cleaning? && s.threads[t].clean.Settle?
    ensures Keeps(s, ThreadNext(s, t, c), t)
  {
  }

  lemma EnableWaitKeeps(s: State, t: Thread, c: Choice)
    requires Before(s, t, c)
    requires (s.threads[t].EnableWait? || s.threads[t].EnableWantLeader? || s.threads[t].EnableWantFollower?)
    ensures Keeps(s, ThreadNext(s, t, c), t)
  {
  }

  lemma ReadGenerationKeeps(s: State, t: Thread, c: Choice)
    requires Before(s, t, c) && s.threads[t].ReadGeneration?
    ensures Keeps(s, ThreadNext(s, t, c), t)
  {
  }

  lemma CancellingKeeps(s: State, t: Thread, c: Choice)
    requires Before(s, t, c) && s.threads[t].Cancelling?
    ensures Keeps(s, ThreadNext(s, t, c), t)
  {
  }

  lemma RollbackWaitKeeps(s: State, t: Thread, c: Choice)
    requires Before(s, t, c) && s.threads[t].RollbackWait?
    ensures Keeps(s, ThreadNext(s, t, c), t)
  {
  }

  lemma RollbackOfEngageKeeps(s: State, t: Thread, c: Choice)
    requires Before(s, t, c)
    requires s.threads[t].RollbackHeld?
    requires RollbackDue(s.pair, Expected(s.threads[t].caller))
    requires s.threads[t].caller.FromEngage?
    ensures Keeps(s, ThreadNext(s, t, c), t)
  {
  }

  lemma RollbackOfDisengageKeeps(s: State, t: Thread, c: Choice)
    requires Before(s, t, c)
    requires s.threads[t].RollbackHeld?
    requires RollbackDue(s.pair, Expected(s.threads[t].caller))
    requires s.threads[t].caller.FromDisengage?
    requires s.pair.armGenerations.Some?
    ensures Keeps(s, ThreadNext(s, t, c), t)
  {
  }

  lemma RollbackOfNothingKeeps(s: State, t: Thread, c: Choice)
    requires Before(s, t, c)
    requires s.threads[t].RollbackHeld?
    requires RollbackDue(s.pair, Expected(s.threads[t].caller))
    requires s.threads[t].caller.FromDisengage?
    requires s.pair.armGenerations.None?
    ensures Keeps(s, ThreadNext(s, t, c), t)
  {
  }

  lemma RollbackNotDueKeeps(s: State, t: Thread, c: Choice)
    requires Before(s, t, c)
    requires s.threads[t].RollbackHeld?
    requires !(RollbackDue(s.pair, Expected(s.threads[t].caller)))
    ensures Keeps(s, ThreadNext(s, t, c), t)
  {
  }

  lemma FinishingKeeps(s: State, t: Thread, c: Choice)
    requires Before(s, t, c) && s.threads[t].Finishing?
    ensures Keeps(s, ThreadNext(s, t, c), t)
  {
  }

  lemma BlockKeeps(s: State, t: Thread, c: Choice)
    requires Before(s, t, c) && (s.threads[t].Blocking? || s.threads[t].BlockWait?)
    ensures Keeps(s, ThreadNext(s, t, c), t)
  {
  }

  lemma ThreadKeeps(s: State, t: Thread, c: Choice)
    requires t in s.threads && Before(s, t, c)
    ensures Keeps(s, ThreadNext(s, t, c), t)
  {
    hide Keeps, Before, ThreadNext;
    assert Runs(s.threads[t]) by { CanStepRuns(s, t, c); }
    match s.threads[t]
    case BeginWait => BeginWaitKeeps(s, t, c);
    case BeginHeld =>
      if Decide(s.pair, s.leader.connected, s.follower.connected) == Admitted && c.ok {
        AdmitKeeps(s, t, c);
      } else {
        NotAdmittedKeeps(s, t, c);
      }
    case Align(step) =>
      if step.Pause? { AlignPauseKeeps(s, t, c); }
      else if step.Float? { AlignFloatKeeps(s, t, c); }
      else if step.Command? { if c.ok { AlignCommandSentKeeps(s, t, c); } else { AlignCommandRaisedKeeps(s, t, c); } }
      else if step.Validate? || step.Sample? || step.Compare? { AlignReadKeeps(s, t, c); }
      else { AlignCheckKeeps(s, t, c); }
    case EnableWait => EnableWaitKeeps(s, t, c);
    case EnableWantLeader => EnableWaitKeeps(s, t, c);
    case EnableWantFollower => EnableWaitKeeps(s, t, c);
    case Enable(step) =>
      if step.MarkEngaged? || step.Unlock? { EnableMarkKeeps(s, t, c); }
      else if step.LockedCheckCancel? || step.LockedCancelSeen? || step.LockedCheckArms? { EnableCheckKeeps(s, t, c); }
      else { EnableCallKeeps(s, t, c); }
    case ReadGeneration => ReadGenerationKeeps(s, t, c);
    case Cancelling(_) => CancellingKeeps(s, t, c);
    case RollbackWait(_) => RollbackWaitKeeps(s, t, c);
    case RollbackHeld(caller) =>
      if !RollbackDue(s.pair, Expected(caller)) { RollbackNotDueKeeps(s, t, c); }
      else if caller.FromEngage? { RollbackOfEngageKeeps(s, t, c); }
      else if s.pair.armGenerations.Some? { RollbackOfDisengageKeeps(s, t, c); }
      else { RollbackOfNothingKeeps(s, t, c); }
    case Cleaning(_, _, step) =>
      if step.WantFollower? || step.CheckFollower? { CleanEnterFollowerKeeps(s, t, c); }
      else if step.PauseFollower? { CleanPauseKeeps(s, t, c); }
      else if step.HoldFollower? { CleanHoldKeeps(s, t, c); }
      else if step.ReleaseFollower? || step.WantLeader? { CleanToLeaderKeeps(s, t, c); }
      else if step.CheckLeader? || step.FloatLeader? { CleanLeaderKeeps(s, t, c); }
      else if step.ReleaseLeader? { CleanReleaseLeaderKeeps(s, t, c); }
      else { CleanSettleKeeps(s, t, c); }
    case Finishing => FinishingKeeps(s, t, c);
    case Blocking => BlockKeeps(s, t, c);
    case BlockWait(_) => BlockKeeps(s, t, c);
    case _ =>
  }

  predicate Runs(pc: Pc) { !pc.Disengaged? && !pc.Blocked? && !pc.Returned? }

  lemma CanStepRuns(s: State, t: Thread, c: Choice)
    requires Before(s, t, c)
    ensures Runs(s.threads[t])
  {
  }

  // ----- steps that belong to no thread of the pair -----

  lemma EnvironmentKeepsThread(s: State, a: Action, u: Thread)
    requires Possible(s, a) && !a.Run? && !a.Call? && u in s.threads && ThreadInv(s, u, s.threads[u])
    ensures ThreadInv(Next(s, a), u, s.threads[u])
  {
  }

  lemma FlagsKeepPair(s: State, a: Action)
    requires Possible(s, a) && (a.CancelEngage? || a.AllowEngagement?) && PairInv(s) && SafetyInv(s)
    ensures PairInv(Next(s, a)) && SafetyInv(Next(s, a)) && Next(s, a).threads == s.threads
  {
  }

  lemma LeaderKeepsPair(s: State, a: Action)
    requires Possible(s, a) && (a.LeaderDies? || a.LeaderRenews?) && PairInv(s) && SafetyInv(s)
    ensures PairInv(Next(s, a)) && SafetyInv(Next(s, a)) && Next(s, a).threads == s.threads
  {
  }

  lemma FollowerKeepsPair(s: State, a: Action)
    requires Possible(s, a) && (a.FollowerDies? || a.FollowerRenews?) && PairInv(s) && SafetyInv(s)
    ensures PairInv(Next(s, a)) && SafetyInv(Next(s, a)) && Next(s, a).threads == s.threads
  {
  }

  lemma EnvironmentKeepsPair(s: State, a: Action)
    requires Possible(s, a) && !a.Run? && !a.Call? && PairInv(s) && SafetyInv(s)
    ensures PairInv(Next(s, a)) && SafetyInv(Next(s, a)) && Next(s, a).threads == s.threads
  {
    hide Next, PairInv, SafetyInv;
    if a.CancelEngage? || a.AllowEngagement? { FlagsKeepPair(s, a); }
    else if a.LeaderDies? || a.LeaderRenews? { LeaderKeepsPair(s, a); }
    else { FollowerKeepsPair(s, a); }
  }

  lemma CallKeeps(s: State, a: Action, u: Thread)
    requires Possible(s, a) && a.Call? && PairInv(s) && SafetyInv(s)
    requires u in s.threads ==> ThreadInv(s, u, s.threads[u])
    ensures PairInv(Next(s, a)) && SafetyInv(Next(s, a))
    ensures u in Next(s, a).threads ==> ThreadInv(Next(s, a), u, Next(s, a).threads[u])
  {
  }

  lemma StepKeepsInv(s: State, a: Action)
    requires Inv(s) && Possible(s, a)
    ensures Inv(Next(s, a))
  {
    hide Next, ThreadNext, Possible, CanStep, PairInv, SafetyInv, ThreadInv, Rely;
    var s' := Next(s, a);
    match a
    case Run(t, c) =>
      RunStep(s, t, c);
    case Call(t, _) =>
      NewThread(s, a);
      forall u | u in s'.threads ensures ThreadInv(s', u, s'.threads[u]) {
        CallKeeps(s, a, u);
      }
      CallKeeps(s, a, t);
    case _ =>
      EnvironmentKeepsPair(s, a);
      forall u | u in s'.threads ensures ThreadInv(s', u, s'.threads[u]) {
        EnvironmentKeepsThread(s, a, u);
      }
  }

  lemma NewThread(s: State, a: Action)
    requires Possible(s, a) && a.Call?
    ensures Next(s, a).threads.Keys == s.threads.Keys + {a.t}
  {
  }

  lemma RunStep(s: State, t: Thread, c: Choice)
    requires Inv(s) && Possible(s, Run(t, c))
    ensures Inv(Next(s, Run(t, c)))
  {
    hide ThreadNext, CanStep, PairInv, SafetyInv, ThreadInv, Rely;
    StepperExists(s, t, c);
    var s' := ThreadNext(s, t, c);
    assert Before(s, t, c) by { OwnerExists(s); }
    ThreadKeeps(s, t, c);
    forall u | u in s'.threads ensures ThreadInv(s', u, s'.threads[u]) {
      if u != t {
        Stable(s, s', t, u, s.threads[u]);
      }
    }
  }

  lemma StepperExists(s: State, t: Thread, c: Choice)
    requires CanStep(s, t, c)
    ensures t in s.threads
  {
  }

  lemma OwnerExists(s: State)
    requires PairInv(s)
    ensures s.owner.Some? ==> s.owner.value in s.threads
  {
  }

  // ----- what holds in every run -----

  lemma {:induction false} ReachableInv(states: seq<State>, k: nat)
    requires Behavior(states) && k < |states|
    ensures Inv(states[k])
  {
    hide Inv, Next, Possible, Initial;
    if k == 0 {
      InitialInv(states[0]);
    } else {
      ReachableInv(states, k - 1);
      assert StepsTo(states[k - 1], states[k - 1 + 1]);
      var a :| Possible(states[k - 1], a) && Next(states[k - 1], a) == states[k];
      StepKeepsInv(states[k - 1], a);
    }
  }

  /** A pair that is engaged always owes a rollback, so every disengage will act on it. */
  lemma EngagedOwesRollback(states: seq<State>, k: nat)
    requires Behavior(states) && k < |states| && states[k].pair.engaged
    ensures states[k].pair.needsRollback
  {
    ReachableInv(states, k);
  }

  /** A finished operation stays finished, and generations and gates only grow. */
  lemma StepIsMonotone(s: State, a: Action, t: Thread)
    requires Inv(s) && Possible(s, a)
    ensures s.pair.generation <= Next(s, a).pair.generation && s.gate <= Next(s, a).gate
    ensures t in s.threads && !Runs(s.threads[t]) ==> t in Next(s, a).threads && Next(s, a).threads[t] == s.threads[t]
  {
    if a.Run? {
      ThreadStepIsMonotone(s, a.t, a.c, t);
    }
  }

  lemma ThreadStepIsMonotone(s: State, t: Thread, c: Choice, u: Thread)
    requires Inv(s) && CanStep(s, t, c)
    ensures s.pair.generation <= ThreadNext(s, t, c).pair.generation && s.gate <= ThreadNext(s, t, c).gate
    ensures u in s.threads && !Runs(s.threads[u]) ==>
              u in ThreadNext(s, t, c).threads && ThreadNext(s, t, c).threads[u] == s.threads[u]
  {
    hide ThreadNext, CanStep, PairInv, SafetyInv, ThreadInv;
    StepperExists(s, t, c);
    assert Before(s, t, c) by { OwnerExists(s); }
    CanStepRuns(s, t, c);
    ThreadKeeps(s, t, c);
  }

  lemma {:induction false} RunIsMonotone(states: seq<State>, k: nat, m: nat, t: Thread)
    requires Behavior(states) && k <= m < |states|
    ensures states[k].pair.generation <= states[m].pair.generation && states[k].gate <= states[m].gate
    ensures t in states[k].threads && !Runs(states[k].threads[t]) ==>
              t in states[m].threads && states[m].threads[t] == states[k].threads[t]
  {
    hide Next, Possible, Initial, Runs, Inv;
    if k < m {
      RunIsMonotone(states, k, m - 1, t);
      assert StepsTo(states[m - 1], states[m - 1 + 1]);
      var a :| Possible(states[m - 1], a) && Next(states[m - 1], a) == states[m];
      ReachableInv(states, m - 1);
      StepIsMonotone(states[m - 1], a, t);
    }
  }

  /** Once `disengage()` has returned, having read generation `seen`, the pair is not engaged
      and stays so until an engage with a larger generation is admitted. */
  lemma DisengageIsFinal(states: seq<State>, k: nat, m: nat, t: Thread, seen: nat)
    requires Behavior(states) && k <= m < |states|
    requires t in states[k].threads && states[k].threads[t] == Disengaged(seen)
    ensures states[m].pair.engaged ==> states[m].pair.generation > seen
  {
    RunIsMonotone(states, k, m, t);
    ReachableInv(states, m);
  }

  /** In a quiescent state that is not engaged and owes no rollback, each arm that is still on
      its admitted connection was last sent its safe command: the leader gravity compensation, the
      follower a pause and then a hold, with one exception.  The hold is undone exactly by an
      alignment command that was sent although its call raised: no check follows it. */
  lemma QuiescentIsSafe(states: seq<State>, k: nat)
    requires Behavior(states) && k < |states|
    requires !states[k].pair.engageInProgress && states[k].cleanup == None && !states[k].pair.needsRollback
    ensures LeaderSafe(states[k])
    ensures var s := states[k];
      s.pair.armGenerations.Some? && s.follower.generation == s.pair.armGenerations.value.1 && s.follower.connected ==>
        !s.follower.live && (s.follower.held <==> !s.follower.stray)
  {
    ReachableInv(states, k);
  }

  /** While a returned `_block_engagement` is in force, no step engages the pair. */
  lemma BlockedStaysDisengaged(states: seq<State>, k: nat, m: nat, t: Thread, gate: nat)
    requires Behavior(states) && k <= m < |states|
    requires t in states[k].threads && states[k].threads[t] == Blocked(gate) && states[m].gate == gate
    requires !states[k].pair.engaged
    ensures !states[m].pair.engaged && states[m].pair.generation == states[k].pair.generation
  {
    hide Next, Possible, Initial, Inv;
    if k < m {
      RunIsMonotone(states, k, m, t);
      RunIsMonotone(states, k, m - 1, t);
      RunIsMonotone(states, m - 1, m, t);
      GateBound(states, k, t);
      BlockedStaysDisengaged(states, k, m - 1, t, gate);
      ReachableInv(states, m - 1);
      assert StepsTo(states[m - 1], states[m - 1 + 1]);
      var a :| Possible(states[m - 1], a) && Next(states[m - 1], a) == states[m];
      BlockedStep(states[m - 1], a, t);
    }
  }

  lemma GateBound(states: seq<State>, k: nat, t: Thread)
    requires Behavior(states) && k < |states| && t in states[k].threads && states[k].threads[t].Blocked?
    ensures states[k].threads[t].gate <= states[k].gate
  {
    ReachableInv(states, k);
  }

  lemma BlockedStep(s: State, a: Action, t: Thread)
    requires Inv(s) && Possible(s, a) && t in s.threads && s.threads[t] == Blocked(s.gate)
    ensures Next(s, a).pair.engaged ==> s.pair.engaged
    ensures Next(s, a).pair.generation == s.pair.generation
  {
    if a.Run? {
      BlockedThreadStep(s, a.t, a.c, t);
    }
  }

  lemma BlockedThreadStep(s: State, t: Thread, c: Choice, b: Thread)
    requires Inv(s) && CanStep(s, t, c) && b in s.threads && s.threads[b] == Blocked(s.gate)
    ensures ThreadNext(s, t, c).pair.engaged ==> s.pair.engaged
    ensures ThreadNext(s, t, c).pair.generation == s.pair.generation
  {
    hide ThreadNext, CanStep, PairInv, SafetyInv;
    StepperExists(s, t, c);
    assert Before(s, t, c) by { OwnerExists(s); }
    ThreadKeeps(s, t, c);
    assert ThreadInv(s, b, s.threads[b]);
  }

  /** Closing a session: a pair that was first blocked and then disengaged, by a disengage
      called after the block had returned, is not engaged and cannot become engaged before
      the next allow. */
  lemma BlockedThenDisengaged(states: seq<State>, i: nat, j: nat, m: nat, b: Thread, gate: nat, d: Thread, seen: nat)
    requires Behavior(states) && i <= j <= m < |states|
    requires b in states[i].threads && states[i].threads[b] == Blocked(gate) && d !in states[i].threads
    requires d in states[j].threads && states[j].threads[d] == Disengaged(seen)
    requires states[m].gate == gate
    ensures !states[m].pair.engaged
  {
    SeenSince(states, i, j, d);
    GenerationFrozen(states, i, m, b, gate);
    DisengageIsFinal(states, j, m, d, seen);
  }

  lemma {:induction false} GenerationFrozen(states: seq<State>, k: nat, m: nat, t: Thread, gate: nat)
    requires Behavior(states) && k <= m < |states|
    requires t in states[k].threads && states[k].threads[t] == Blocked(gate) && states[m].gate == gate
    ensures states[m].pair.generation == states[k].pair.generation
  {
    hide Next, Possible, Initial, Inv;
    if k < m {
      RunIsMonotone(states, k, m, t);
      RunIsMonotone(states, k, m - 1, t);
      RunIsMonotone(states, m - 1, m, t);
      GateBound(states, k, t);
      GenerationFrozen(states, k, m - 1, t, gate);
      ReachableInv(states, m - 1);
      assert StepsTo(states[m - 1], states[m - 1 + 1]);
      var a :| Possible(states[m - 1], a) && Next(states[m - 1], a) == states[m];
      BlockedStep(states[m - 1], a, t);
    }
  }

  /** A disengage called after state `i` has read a generation at least as large as `i`'s. */
  lemma {:induction false} SeenSince(states: seq<State>, i: nat, j: nat, d: Thread)
    requires Behavior(states) && i <= j < |states| && d !in states[i].threads
    ensures d in states[j].threads && Seen(states[j].threads[d]).Some? ==>
              Seen(states[j].threads[d]).value >= states[i].pair.generation
  {
    hide Next, Possible, Initial, Seen;
    if i < j {
      SeenSince(states, i, j - 1, d);
      RunIsMonotone(states, i, j - 1, d);
      assert StepsTo(states[j - 1], states[j - 1 + 1]);
      var a :| Possible(states[j - 1], a) && Next(states[j - 1], a) == states[j];
      SeenStep(states[j - 1], a, d);
    }
  }

  lemma SeenStep(s: State, a: Action, d: Thread)
    requires Possible(s, a)
    ensures d in Next(s, a).threads && Seen(Next(s, a).threads[d]).Some? ==>
              || Seen(Next(s, a).threads[d]).value == s.pair.generation
              || (d in s.threads && Seen(s.threads[d]) == Seen(Next(s, a).threads[d]))
  {
    if a.Run? {
      hide ThreadNext, CanStep, Seen;
      StepperExists(s, a.t, a.c);
      if s.threads[a.t].Align? || s.threads[a.t].Enable? {
        SeenByEngage(s, a.t, a.c);
      } else if s.threads[a.t].Cleaning? {
        SeenWhileCleaning(s, a.t, a.c);
      } else {
        SeenElsewhere(s, a.t, a.c);
      }
    }
  }

  ghost predicate SeenKept(s: State, s': State, t: Thread) {
    && t in s.threads && t in s'.threads
    && s'.threads == s.threads[t := s'.threads[t]]
    && (Seen(s'.threads[t]).Some? ==>
          Seen(s'.threads[t]).value == s.pair.generation || Seen(s.threads[t]) == Seen(s'.threads[t]))
  }

  lemma SeenByEngage(s: State, t: Thread, c: Choice)
    requires CanStep(s, t, c) && (s.threads[t].Align? || s.threads[t].Enable?)
    ensures SeenKept(s, ThreadNext(s, t, c), t)
  {
  }

  lemma SeenWhileCleaning(s: State, t: Thread, c: Choice)
    requires CanStep(s, t, c) && s.threads[t].Cleaning?
    ensures SeenKept(s, ThreadNext(s, t, c), t)
  {
  }

  lemma SeenElsewhere(s: State, t: Thread, c: Choice)
    requires CanStep(s, t, c) && !s.threads[t].Align? && !s.threads[t].Enable? && !s.threads[t].Cleaning?
    ensures SeenKept(s, ThreadNext(s, t, c), t)
  {
  }
}
