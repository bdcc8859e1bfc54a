/** What an engagement means for the arms: which mode each arm was last sent on the connection it was
    admitted with, while the pair is aligned, enabled and engaged. */
module TeleopModes {
  import opened Wrappers
  import opened Engagement
  import opened Teleop

  /** The arm is still on its admitted connection. */
  predicate LeaderAdmitted(s: State) {
    && s.pair.armGenerations.Some? && s.leader.connected && s.leader.generation == s.pair.armGenerations.value.0
  }

  predicate FollowerAdmitted(s: State) {
    && s.pair.armGenerations.Some? && s.follower.connected && s.follower.generation == s.pair.armGenerations.value.1
  }

  /** The operator feels the follower, and the follower listens to the leader. */
  predicate EngagedModes(s: State) {
    && (LeaderAdmitted(s) ==> !s.leader.gravity)
    && (FollowerAdmitted(s) ==> s.follower.live && !s.follower.held)
  }

  // ----- the modes of an engage in progress -----

  /** The follower has been paused and not yet resumed. */
  predicate Paused(pc: Pc) {
    || (pc.Align? && !pc.step.Pause?) || pc.EnableWait? || pc.EnableWantLeader? || pc.EnableWantFollower?
    || (pc.Enable? && ( pc.locked.LockedCheckCancel? || pc.locked.LockedCancelSeen? || pc.locked.LockedCheckArms?
                        || pc.locked.Feedback? || pc.locked.ArmsAfterFeedback? || pc.locked.Resume?))
  }

  predicate BeforeFloat(step: AlignStep) {
    step.Pause? || step.Float? || step.CancelSeen? || step == CheckCancel(ToFloat) || step == CheckArms(ToFloat)
  }

  /** The leader floats. */
  predicate Floated(pc: Pc) {
    || (pc.Align? && !BeforeFloat(pc.step)) || pc.EnableWait? || pc.EnableWantLeader? || pc.EnableWantFollower?
    || (pc.Enable? && ( pc.locked.LockedCheckCancel? || pc.locked.LockedCancelSeen? || pc.locked.LockedCheckArms?
                        || pc.locked.Feedback?))
  }

  /** The leader feels the follower. */
  predicate Fed(pc: Pc) {
    pc.Enable? && ( pc.locked.ArmsAfterFeedback? || pc.locked.Resume? || pc.locked.ArmsAfterResume?
                    || pc.locked.MarkEngaged? || pc.locked == Unlock(true))
  }

  /** The follower has been resumed. */
  predicate Resumed(pc: Pc) {
    pc.Enable? && (pc.locked.ArmsAfterResume? || pc.locked.MarkEngaged? || pc.locked == Unlock(true))
  }

  /** The enabling has passed its check of the arms under their locks and not failed since. */
  predicate Enabling(pc: Pc) { Fed(pc) || pc == Enable(Feedback) }

  /** Both arms have had no new connection since the admission. */
  predicate SameConnections(s: State) {
    && s.pair.armGenerations.Some?
    && s.leader.generation == s.pair.armGenerations.value.0
    && s.follower.generation == s.pair.armGenerations.value.1
  }

  predicate OwnerModes(s: State, pc: Pc) {
    && (Enabling(pc) ==> SameConnections(s))
    && (Paused(pc) && FollowerAdmitted(s) ==> !s.follower.live)
    && (Floated(pc) && LeaderAdmitted(s) ==> s.leader.gravity)
    && (Fed(pc) && LeaderAdmitted(s) ==> !s.leader.gravity)
    && (Resumed(pc) && FollowerAdmitted(s) ==> s.follower.live && !s.follower.held)
    && (s.pair.engaged ==> pc.Finishing? || pc == Enable(Unlock(true)))
  }

  /** A rollback has found the arm it is about to command on the connection of the engagement, and holds
      its lock. */
  predicate CleanModes(s: State, pc: Pc) {
    && (pc.Cleaning? && (pc.clean.PauseFollower? || pc.clean.HoldFollower?) ==> s.follower.generation == pc.arms.1)
    && (pc.Cleaning? && pc.clean.FloatLeader? ==> s.leader.generation == pc.arms.0)
  }

  predicate ModeInv(s: State) {
    && CleanModes(s, PcOf(s, s.cleanup))
    && (s.owner.Some? ==> OwnerModes(s, PcOf(s, s.owner)))
    && (PcOf(s, s.cleanup).Cleaning? ==> !s.pair.engaged)
    && (s.pair.engaged ==> EngagedModes(s))
  }

  // ----- every step keeps the modes -----

  /** What a step has to know about who owns the engage in progress and who cleans up. */
  predicate Known(s: State, t: Thread) {
    && t in s.threads
    && (HoldsCleanup(s.threads[t]) <==> s.cleanup == Some(t))
    && (Owns(s.threads[t]) <==> s.owner == Some(t))
    && (s.owner.Some? ==> s.owner.value in s.threads && Owns(s.threads[s.owner.value])
                          && (HoldsCleanup(s.threads[s.owner.value]) <==> s.cleanup == s.owner))
    && (s.cleanup.Some? ==> s.cleanup.value in s.threads)
    && (s.pair.engageInProgress <==> s.owner.Some?)
    && (s.threads[t].Cleaning? ==> s.pair.armGenerations == Some(s.threads[t].arms))
  }

  ghost predicate Steps(s: State, t: Thread, c: Choice) { Known(s, t) && ModeInv(s) && CanStep(s, t, c) }

  lemma WhoSteps(s: State, t: Thread)
    requires Inv(s) && t in s.threads
    ensures Known(s, t)
  {
    hide SafetyInv;
    assert ThreadInv(s, t, s.threads[t]);
    if s.owner.Some? {
      assert ThreadInv(s, s.owner.value, s.threads[s.owner.value]);
    }
  }

  /** A step that touches neither the arms nor what the modes speak of. */
  predicate Quiet(s: State, s': State, t: Thread) {
    && t in s.threads && t in s'.threads && s'.threads == s.threads[t := s'.threads[t]]
    && s'.leader == s.leader && s'.follower == s.follower
    && s'.pair.armGenerations == s.pair.armGenerations && s'.owner == s.owner
    && (s'.pair.engaged ==> s.pair.engaged)
    && (s'.cleanup == s.cleanup || s'.cleanup == None || (s'.cleanup == Some(t) && !s'.threads[t].Cleaning?))
  }

  lemma QuietKeepsModes(s: State, s': State, t: Thread)
    requires ModeInv(s) && Quiet(s, s', t)
    requires s.owner == Some(t) ==> OwnerModes(s', s'.threads[t])
    requires s.cleanup == s'.cleanup == Some(t) && s'.threads[t].Cleaning? ==>
      !s'.pair.engaged && CleanModes(s', s'.threads[t])
    requires s.owner.Some? ==> s.owner.value in s.threads
    ensures ModeInv(s')
  {
  }

  lemma BeginKeepsModes(s: State, t: Thread, c: Choice)
    requires Steps(s, t, c) && (s.threads[t].BeginWait? || s.threads[t].BeginHeld?)
    ensures ModeInv(ThreadNext(s, t, c))
  {
  }

  /** Reading, checking and waiting. */
  lemma AlignKeepsModes(s: State, t: Thread, c: Choice)
    requires Steps(s, t, c) && s.threads[t].Align?
    requires !s.threads[t].step.Pause? && !s.threads[t].step.Float? && !s.threads[t].step.Command?
    ensures ModeInv(ThreadNext(s, t, c))
  {
    hide ModeInv, ThreadNext, OwnerModes, Quiet;
    var s' := ThreadNext(s, t, c);
    AlignIsQuiet(s, t, c);
    OwnerIsIn(s, t, c);
    if s.threads[t].step.CheckArms? {
      ArmsCheckModes(s, t, c);
    } else {
      ReadModes(s, t, c);
    }
    QuietKeepsModes(s, s', t);
  }

  lemma AlignIsQuiet(s: State, t: Thread, c: Choice)
    requires t in s.threads && s.threads[t].Align?
    requires !s.threads[t].step.Pause? && !s.threads[t].step.Float? && !s.threads[t].step.Command?
    ensures Quiet(s, ThreadNext(s, t, c), t) && !ThreadNext(s, t, c).threads[t].Cleaning?
  {
  }

  lemma OwnerIsIn(s: State, t: Thread, c: Choice)
    requires Steps(s, t, c) && Owns(s.threads[t])
    ensures OwnerModes(s, s.threads[t])
  {
    hide OwnerModes;
  }

  lemma ArmsCheckModes(s: State, t: Thread, c: Choice)
    requires t in s.threads && OwnerModes(s, s.threads[t]) && s.threads[t].Align? && s.threads[t].step.CheckArms?
    ensures OwnerModes(ThreadNext(s, t, c), ThreadNext(s, t, c).threads[t])
  {
  }

  lemma ReadModes(s: State, t: Thread, c: Choice)
    requires t in s.threads && OwnerModes(s, s.threads[t]) && s.threads[t].Align? && !s.threads[t].step.CheckArms?
    requires !s.threads[t].step.Pause? && !s.threads[t].step.Float? && !s.threads[t].step.Command?
    ensures OwnerModes(ThreadNext(s, t, c), ThreadNext(s, t, c).threads[t])
  {
  }

  lemma AlignCallKeepsModes(s: State, t: Thread, c: Choice)
    requires Steps(s, t, c) && s.threads[t].Align?
    requires s.threads[t].step.Pause? || s.threads[t].step.Float? || s.threads[t].step.Command?
    ensures ModeInv(ThreadNext(s, t, c))
  {
  }

  lemma EnableCallModes(s: State, t: Thread, c: Choice)
    requires Steps(s, t, c) && s.threads[t].Enable? && (s.threads[t].locked.Feedback? || s.threads[t].locked.Resume?)
    ensures OwnerModes(ThreadNext(s, t, c), ThreadNext(s, t, c).threads[t])
    ensures !ThreadNext(s, t, c).pair.engaged
  {
  }

  lemma EnableMarkModes(s: State, t: Thread, c: Choice)
    requires Steps(s, t, c) && s.threads[t].Enable?
    requires s.threads[t].locked.MarkEngaged? || s.threads[t].locked.Unlock?
    ensures OwnerModes(ThreadNext(s, t, c), ThreadNext(s, t, c).threads[t])
    ensures ThreadNext(s, t, c).pair.engaged ==> EngagedModes(ThreadNext(s, t, c))
  {
  }

  lemma EnableCheckModes(s: State, t: Thread, c: Choice)
    requires Steps(s, t, c) && s.threads[t].Enable?
    requires var e := s.threads[t].locked; !e.Feedback? && !e.Resume? && !e.MarkEngaged? && !e.Unlock?
    ensures OwnerModes(ThreadNext(s, t, c), ThreadNext(s, t, c).threads[t])
    ensures !ThreadNext(s, t, c).pair.engaged
  {
    hide EngagedModes;
  }

  lemma EnableModes(s: State, t: Thread, c: Choice)
    requires Steps(s, t, c) && s.threads[t].Enable?
    ensures OwnerModes(ThreadNext(s, t, c), ThreadNext(s, t, c).threads[t])
    ensures ThreadNext(s, t, c).pair.engaged ==> EngagedModes(ThreadNext(s, t, c))
  {
    hide ModeInv, OwnerModes, EngagedModes, ThreadNext, CanStep;
    var e := s.threads[t].locked;
    if e.Feedback? || e.Resume? { EnableCallModes(s, t, c); }
    else if e.MarkEngaged? || e.Unlock? { EnableMarkModes(s, t, c); }
    else { EnableCheckModes(s, t, c); }
  }

  /** While the owner holds the cleanup lock nobody cleans up. */
  lemma EnableKeepsModes(s: State, t: Thread, c: Choice)
    requires Steps(s, t, c) && s.threads[t].Enable?
    ensures ModeInv(ThreadNext(s, t, c))
  {
    hide OwnerModes, EngagedModes;
    EnableModes(s, t, c);
  }

  lemma CleaningCallKeepsModes(s: State, t: Thread, c: Choice)
    requires Steps(s, t, c) && s.threads[t].Cleaning?
    requires var r := s.threads[t].clean; r.PauseFollower? || r.HoldFollower? || r.FloatLeader?
    ensures ModeInv(ThreadNext(s, t, c))
  {
  }

  lemma CleaningKeepsModes(s: State, t: Thread, c: Choice)
    requires Steps(s, t, c) && s.threads[t].Cleaning?
    requires var r := s.threads[t].clean; !r.PauseFollower? && !r.HoldFollower? && !r.FloatLeader?
    ensures ModeInv(ThreadNext(s, t, c))
  {
    assert !s.pair.engaged;
    hide ModeInv, ThreadNext;
    var s' := ThreadNext(s, t, c);
    CleaningIsQuiet(s, t, c);
    assert s.owner == Some(t) ==> OwnerModes(s', s'.threads[t]);
    QuietKeepsModes(s, s', t);
  }

  lemma CleaningIsQuiet(s: State, t: Thread, c: Choice)
    requires t in s.threads && s.threads[t].Cleaning? && !s.pair.engaged && s.cleanup == Some(t)
    requires var r := s.threads[t].clean; !r.PauseFollower? && !r.HoldFollower? && !r.FloatLeader?
    ensures var s' := ThreadNext(s, t, c);
      && Quiet(s, s', t) && !s'.pair.engaged && CleanModes(s', s'.threads[t])
      && (s'.threads[t].Cleaning? || s'.threads[t].Finishing? || s'.threads[t].Disengaged?)
  {
  }

  /** Taking, deciding and leaving a rollback, and the end of an engage. */
  lemma OtherKeepsModes(s: State, t: Thread, c: Choice)
    requires Steps(s, t, c)
    requires var pc := s.threads[t];
      !pc.BeginWait? && !pc.BeginHeld? && !pc.Align? && !pc.Enable? && !pc.Cleaning? && !pc.Finishing?
    ensures ModeInv(ThreadNext(s, t, c))
  {
    var s' := ThreadNext(s, t, c);
    if s.threads[t].RollbackHeld? {
      RollbackIsQuiet(s, t, c);
    } else {
      OtherIsQuiet(s, t, c);
    }
    if s.owner == Some(t) {
      OtherModes(s, t, c);
    }
    hide ModeInv, ThreadNext;
    QuietKeepsModes(s, s', t);
  }

  lemma RollbackIsQuiet(s: State, t: Thread, c: Choice)
    requires Steps(s, t, c) && s.threads[t].RollbackHeld?
    ensures Quiet(s, ThreadNext(s, t, c), t) && CleanModes(ThreadNext(s, t, c), ThreadNext(s, t, c).threads[t])
    ensures ThreadNext(s, t, c).threads[t].Cleaning? ==> !ThreadNext(s, t, c).pair.engaged
  {
    hide ModeInv;
  }

  lemma OtherIsQuiet(s: State, t: Thread, c: Choice)
    requires Steps(s, t, c)
    requires var pc := s.threads[t];
      !pc.BeginWait? && !pc.BeginHeld? && !pc.Align? && !pc.Enable? && !pc.Cleaning? && !pc.Finishing?
      && !pc.RollbackHeld?
    ensures Quiet(s, ThreadNext(s, t, c), t) && !ThreadNext(s, t, c).threads[t].Cleaning?
  {
    hide ModeInv;
  }

  lemma OtherModes(s: State, t: Thread, c: Choice)
    requires Steps(s, t, c) && s.owner == Some(t)
    requires !s.threads[t].Align? && !s.threads[t].Enable? && !s.threads[t].Cleaning? && !s.threads[t].Finishing?
    ensures OwnerModes(ThreadNext(s, t, c), ThreadNext(s, t, c).threads[t])
  {
    hide EngagedModes;
  }

  lemma FinishingKeepsModes(s: State, t: Thread, c: Choice)
    requires Steps(s, t, c) && s.threads[t].Finishing?
    ensures ModeInv(ThreadNext(s, t, c))
  {
  }

  lemma EnvironmentKeepsModes(s: State, a: Action)
    requires Inv(s) && ModeInv(s) && Possible(s, a) && !a.Run?
    ensures ModeInv(Next(s, a))
  {
    hide SafetyInv, ThreadInv;
    assert s.owner.Some? && Enabling(s.threads[s.owner.value]) ==>
      s.leaderLock == s.followerLock == s.owner by { EnablingHoldsLocks(s); }
    CleaningHoldsLocks(s);
  }

  lemma CleaningHoldsLocks(s: State)
    requires Inv(s)
    ensures s.cleanup.Some? ==> s.cleanup.value in s.threads
    ensures s.cleanup.Some? && HoldsLeader(s.threads[s.cleanup.value]) ==> s.leaderLock == s.cleanup
    ensures s.cleanup.Some? && HoldsFollower(s.threads[s.cleanup.value]) ==> s.followerLock == s.cleanup
  {
    hide SafetyInv;
    if s.cleanup.Some? {
      assert ThreadInv(s, s.cleanup.value, s.threads[s.cleanup.value]);
    }
  }

  lemma EnablingHoldsLocks(s: State)
    requires Inv(s)
    ensures s.owner.Some? ==> s.owner.value in s.threads
    ensures s.owner.Some? && s.threads[s.owner.value].Enable? ==> s.leaderLock == s.followerLock == s.owner
  {
    hide SafetyInv;
    if s.owner.Some? {
      assert ThreadInv(s, s.owner.value, s.threads[s.owner.value]);
    }
  }

  lemma ThreadKeepsModes(s: State, t: Thread, c: Choice)
    requires Steps(s, t, c)
    ensures ModeInv(ThreadNext(s, t, c))
  {
    hide Known, ModeInv, ThreadNext, CanStep;
    assert t in s.threads by { KnownRuns(s, t); }
    match s.threads[t]
    case BeginWait => BeginKeepsModes(s, t, c);
    case BeginHeld => BeginKeepsModes(s, t, c);
    case Align(step) =>
      if step.Pause? || step.Float? || step.Command? { AlignCallKeepsModes(s, t, c); }
      else { AlignKeepsModes(s, t, c); }
    case Enable(_) => EnableKeepsModes(s, t, c);
    case Cleaning(_, _, r) =>
      if r.PauseFollower? || r.HoldFollower? || r.FloatLeader? { CleaningCallKeepsModes(s, t, c); }
      else { CleaningKeepsModes(s, t, c); }
    case Finishing => FinishingKeepsModes(s, t, c);
    case _ => OtherKeepsModes(s, t, c);
  }

  lemma KnownRuns(s: State, t: Thread)
    requires Known(s, t)
    ensures t in s.threads
  {
  }

  lemma StepKeepsModes(s: State, a: Action)
    requires Inv(s) && ModeInv(s) && Possible(s, a)
    ensures ModeInv(Next(s, a))
  {
    hide Inv, ModeInv, ThreadNext, CanStep, Known;
    if a.Run? {
      StepperExists(s, a.t, a.c);
      WhoSteps(s, a.t);
      ThreadKeepsModes(s, a.t, a.c);
    } else {
      EnvironmentKeepsModes(s, a);
    }
  }

  lemma {:induction false} ReachableModes(states: seq<State>, k: nat)
    requires Behavior(states) && k < |states|
    ensures ModeInv(states[k])
  {
    hide ModeInv, Next, Possible, Inv;
    if k == 0 {
      InitialModes(states[0]);
    } else {
      ReachableModes(states, k - 1);
      ReachableInv(states, k - 1);
      assert StepsTo(states[k - 1], states[k - 1 + 1]);
      var a :| Possible(states[k - 1], a) && Next(states[k - 1], a) == states[k];
      StepKeepsModes(states[k - 1], a);
    }
  }

  lemma InitialModes(s: State)
    requires Initial(s)
    ensures ModeInv(s)
  {
  }

  // ----- admission and cancellation -----

  /** The action cancels the alignment: a cancel, a disengage, or the shutting of the gate. */
  predicate Cancels(s: State, a: Action)
    requires Possible(s, a)
  {
    a.CancelEngage? || (a.Run? && (s.threads[a.t].Cancelling? || s.threads[a.t].Blocking?))
  }

  /** Thread `t` is admitted: nobody else is, the gate is open, both arms are connected, and the
      engagement starts uncancelled, owing a rollback, on the connections it has captured. */
  predicate Admits(s: State, s': State, t: Thread, c: Choice) {
    && !s.pair.blocked && s.leader.connected && s.follower.connected && !s.pair.engaged && !s.pair.engageInProgress
    && s'.pair.generation == s.pair.generation + 1 && s'.pair.engageInProgress && s'.pair.needsRollback
    && !s'.pair.alignCancel && s'.pair.armGenerations == Some((c.generation, c.followerGeneration))
    && s'.owner == Some(t) && s'.leader == s.leader && s'.follower == s.follower
  }

  lemma AdmissionByThread(s: State, t: Thread, c: Choice)
    requires CanStep(s, t, c) && (s.threads[t].BeginWait? || s.threads[t].BeginHeld?)
    ensures var s' := ThreadNext(s, t, c);
      && (if s'.pair.generation != s.pair.generation then Admits(s, s', t, c) else s'.pair == s.pair)
      && (s.threads[t].BeginHeld? && s'.pair == s.pair ==>
            s'.threads[t] == if !s.pair.blocked && s.leader.connected && s.follower.connected && c.ok then Returned
                             else ReadGeneration)
  {
  }

  predicate NotAdmitted(s: State, s': State, cancels: bool) {
    && s'.pair.generation == s.pair.generation && s'.pair.armGenerations == s.pair.armGenerations
    && (s'.pair.engageInProgress ==> s.pair.engageInProgress)
    && (s'.pair.alignCancel <==> s.pair.alignCancel || cancels)
  }

  lemma AlignDoesNotAdmit(s: State, t: Thread, c: Choice)
    requires t in s.threads && s.threads[t].Align?
    ensures NotAdmitted(s, ThreadNext(s, t, c), false)
  {
  }

  lemma EnableDoesNotAdmit(s: State, t: Thread, c: Choice)
    requires t in s.threads && s.threads[t].Enable?
    ensures NotAdmitted(s, ThreadNext(s, t, c), false)
  {
  }

  lemma CleaningDoesNotAdmit(s: State, t: Thread, c: Choice)
    requires t in s.threads && s.threads[t].Cleaning?
    ensures NotAdmitted(s, ThreadNext(s, t, c), false)
  {
  }

  lemma OtherDoesNotAdmit(s: State, t: Thread, c: Choice)
    requires t in s.threads && !s.threads[t].Align? && !s.threads[t].Enable? && !s.threads[t].Cleaning?
    requires !s.threads[t].BeginWait? && !s.threads[t].BeginHeld?
    ensures NotAdmitted(s, ThreadNext(s, t, c), s.threads[t].Cancelling? || s.threads[t].Blocking?)
  {
  }

  lemma NoAdmission(s: State, t: Thread, c: Choice)
    requires t in s.threads && !s.threads[t].BeginWait? && !s.threads[t].BeginHeld?
    ensures NotAdmitted(s, ThreadNext(s, t, c), s.threads[t].Cancelling? || s.threads[t].Blocking?)
  {
    hide ThreadNext, NotAdmitted;
    var pc := s.threads[t];
    if pc.Align? { AlignDoesNotAdmit(s, t, c); }
    else if pc.Enable? { EnableDoesNotAdmit(s, t, c); }
    else if pc.Cleaning? { CleaningDoesNotAdmit(s, t, c); }
    else { OtherDoesNotAdmit(s, t, c); }
  }

  /** A new generation is an admission; a cancellation stays in force until the next one. */
  lemma AdmissionOrCancel(s: State, a: Action)
    requires Possible(s, a)
    ensures var s' := Next(s, a);
      if s'.pair.generation != s.pair.generation then a.Run? && Admits(s, s', a.t, a.c)
      else
        && (s'.pair.alignCancel <==> s.pair.alignCancel || Cancels(s, a))
        && s'.pair.armGenerations == s.pair.armGenerations && (s'.pair.engageInProgress ==> s.pair.engageInProgress)
  {
    hide ThreadNext, CanStep;
    if a.Run? {
      StepperExists(s, a.t, a.c);
      if s.threads[a.t].BeginWait? || s.threads[a.t].BeginHeld? {
        AdmissionByThread(s, a.t, a.c);
      } else {
        NoAdmission(s, a.t, a.c);
      }
    }
  }

  // ----- checks between the calls of an alignment -----

  /** The calls to the arms after the first pause, and the comparison of what they return. */
  predicate Calls(step: AlignStep) { step.Float? || step.Validate? || step.Sample? || step.Compare? }

  /** What a thread that is elsewhere in the next state has passed on its way. */
  predicate Checked(s: State, s': State, pc: Pc, next: Pc) {
    && (next.EnableWait? || (next.Align? && Calls(next.step)) ==>
          pc.Align? && pc.step.CheckArms? && LeaderAdmitted(s) && FollowerAdmitted(s))
    && (next.Enable? && (next.locked.Feedback? || next.locked.Resume? || next.locked.MarkEngaged?) ==>
          LeaderAdmitted(s) && FollowerAdmitted(s))
    && (next.Enable? && next.locked.LockedCheckArms? ==> !s.pair.alignCancel)
    && (next.Align? && next.step.CheckArms? ==> pc.Align? && pc.step.CheckCancel? && !s.pair.alignCancel)
    && (next.Align? && next.step.Command? ==> pc == Align(Compare))
    && ((pc.Align? && pc.step.CancelSeen?) || pc == Enable(LockedCancelSeen) ==> s'.pair.needsRollback)
  }

  /** Thread `t`, and no other, goes on as checked. */
  predicate Moves(s: State, s': State, t: Thread) {
    && t in s.threads && t in s'.threads && s'.threads == s.threads[t := s'.threads[t]]
    && Checked(s, s', s.threads[t], s'.threads[t])
  }

  lemma BeginIsChecked(s: State, t: Thread, c: Choice)
    requires t in s.threads && (s.threads[t].BeginWait? || s.threads[t].BeginHeld?)
    ensures Moves(s, ThreadNext(s, t, c), t)
  {
  }

  lemma AlignIsChecked(s: State, t: Thread, c: Choice)
    requires t in s.threads && s.threads[t].Align?
    ensures Moves(s, ThreadNext(s, t, c), t)
  {
  }

  lemma EnableIsChecked(s: State, t: Thread, c: Choice)
    requires t in s.threads && s.threads[t].Enable?
    requires var e := s.threads[t].locked; !e.Feedback? && !e.Resume? && !e.MarkEngaged? && !e.Unlock?
    ensures Moves(s, ThreadNext(s, t, c), t)
  {
  }

  lemma EnableCallIsChecked(s: State, t: Thread, c: Choice)
    requires t in s.threads && s.threads[t].Enable?
    requires var e := s.threads[t].locked; e.Feedback? || e.Resume? || e.MarkEngaged? || e.Unlock?
    ensures Moves(s, ThreadNext(s, t, c), t)
  {
  }

  lemma CleaningIsChecked(s: State, t: Thread, c: Choice)
    requires t in s.threads && s.threads[t].Cleaning?
    ensures Moves(s, ThreadNext(s, t, c), t)
  {
  }

  lemma OtherIsChecked(s: State, t: Thread, c: Choice)
    requires CanStep(s, t, c) && !s.threads[t].Align? && !s.threads[t].Enable? && !s.threads[t].Cleaning?
    requires !s.threads[t].BeginWait? && !s.threads[t].BeginHeld?
    ensures Moves(s, ThreadNext(s, t, c), t)
  {
  }

  lemma ThreadIsChecked(s: State, t: Thread, c: Choice)
    requires CanStep(s, t, c)
    ensures Moves(s, ThreadNext(s, t, c), t)
  {
    hide ThreadNext, CanStep, Moves;
    StepperExists(s, t, c);
    var pc := s.threads[t];
    if pc.Align? { AlignIsChecked(s, t, c); }
    else if pc.Enable? {
      var e := pc.locked;
      if e.Feedback? || e.Resume? || e.MarkEngaged? || e.Unlock? { EnableCallIsChecked(s, t, c); }
      else { EnableIsChecked(s, t, c); }
    }
    else if pc.Cleaning? { CleaningIsChecked(s, t, c); }
    else if pc.BeginWait? || pc.BeginHeld? { BeginIsChecked(s, t, c); }
    else { OtherIsChecked(s, t, c); }
  }

  /** Every call of an alignment and of the enabling, and the marking, comes right after a check that found
      both arms on their admitted connections, and the check of an alignment after one that found no
      cancellation; a position command comes right after the comparison of fresh states.  An engage that
      finds itself cancelled owes a rollback. */
  lemma CallsAreChecked(states: seq<State>, k: nat, t: Thread)
    requires Behavior(states) && k + 1 < |states| && t in states[k].threads && t in states[k + 1].threads
    requires states[k].threads[t] != states[k + 1].threads[t]
    ensures Checked(states[k], states[k + 1], states[k].threads[t], states[k + 1].threads[t])
  {
    hide Possible, Initial, Checked, ThreadNext, CanStep;
    assert StepsTo(states[k], states[k + 1]);
    var a :| Possible(states[k], a) && Next(states[k], a) == states[k + 1];
    OnlyRunsMove(states[k], a, t);
  }

  lemma OnlyRunsMove(s: State, a: Action, t: Thread)
    requires Possible(s, a) && t in s.threads && t in Next(s, a).threads && Next(s, a).threads[t] != s.threads[t]
    ensures Checked(s, Next(s, a), s.threads[t], Next(s, a).threads[t])
  {
    hide ThreadNext, CanStep, Checked;
    if a.Run? {
      ThreadIsChecked(s, a.t, a.c);
    }
  }

  // ----- the theorems -----

  /** In every reachable state in which the pair is engaged, each arm that is still on its admitted
      connection was last sent its engaged mode: the leader is bilateral, and the follower has been
      resumed and not been held since. */
  lemma EngagedIsLive(states: seq<State>, k: nat)
    requires Behavior(states) && k < |states| && states[k].pair.engaged
    ensures EngagedModes(states[k])
  {
    ReachableModes(states, k);
  }

  /** An arm is sent its engaged mode, on a connection that goes on. */
  predicate Handed(s: State, s': State) {
    || (s'.leader.generation == s.leader.generation && s.leader.gravity && !s'.leader.gravity)
    || (s'.follower.generation == s.follower.generation && !s.follower.live && s'.follower.live)
  }

  predicate Tame(s: State, s': State) { !Handed(s, s') && (s'.pair.engaged ==> s.pair.engaged) }

  lemma AlignIsTame(s: State, t: Thread, c: Choice)
    requires t in s.threads && (s.threads[t].Align? || s.threads[t].BeginWait? || s.threads[t].BeginHeld?)
    ensures Tame(s, ThreadNext(s, t, c))
  {
  }

  lemma CleaningIsTame(s: State, t: Thread, c: Choice)
    requires t in s.threads && s.threads[t].Cleaning?
    ensures Tame(s, ThreadNext(s, t, c))
  {
  }

  lemma OtherIsTame(s: State, t: Thread, c: Choice)
    requires t in s.threads && !s.threads[t].Enable? && !s.threads[t].Align? && !s.threads[t].Cleaning?
    requires !s.threads[t].BeginWait? && !s.threads[t].BeginHeld?
    ensures Tame(s, ThreadNext(s, t, c))
  {
  }

  lemma EnableEngages(s: State, t: Thread, c: Choice)
    requires t in s.threads && s.threads[t].Enable? && OwnerModes(s, s.threads[t])
    ensures var s' := ThreadNext(s, t, c);
      && (s'.pair.engaged && !s.pair.engaged ==> LeaderAdmitted(s) && FollowerAdmitted(s) && EngagedModes(s))
      && (Handed(s, s') ==> SameConnections(s))
  {
  }

  lemma EngagingThread(s: State, t: Thread, c: Choice)
    requires Steps(s, t, c)
    ensures var s' := ThreadNext(s, t, c);
      && (s'.pair.engaged && !s.pair.engaged ==> LeaderAdmitted(s) && FollowerAdmitted(s) && EngagedModes(s))
      && (Handed(s, s') ==> SameConnections(s))
  {
    hide ThreadNext, CanStep, Handed, EngagedModes, OwnerModes;
    var pc := s.threads[t];
    if pc.Enable? { EnableEngages(s, t, c); }
    else if pc.Align? || pc.BeginWait? || pc.BeginHeld? { AlignIsTame(s, t, c); }
    else if pc.Cleaning? { CleaningIsTame(s, t, c); }
    else { OtherIsTame(s, t, c); }
  }

  lemma EngagingStep(s: State, a: Action)
    requires Inv(s) && ModeInv(s) && Possible(s, a)
    ensures var s' := Next(s, a);
      && (s'.pair.engaged && !s.pair.engaged ==> LeaderAdmitted(s) && FollowerAdmitted(s) && EngagedModes(s))
      && (Handed(s, s') ==> SameConnections(s))
  {
    hide Inv, ModeInv, ThreadNext, CanStep, Known;
    if a.Run? {
      StepperExists(s, a.t, a.c);
      WhoSteps(s, a.t);
      EngagingThread(s, a.t, a.c);
    }
  }

  /** The follower is resumed, and the leader made bilateral, only on the connections of the
      admission, and the pair becomes engaged only while both of them are up. */
  lemma EngagesAdmittedArms(states: seq<State>, k: nat)
    requires Behavior(states) && k + 1 < |states|
    ensures var s, s' := states[k], states[k + 1];
      && (s'.pair.engaged && !s.pair.engaged ==> LeaderAdmitted(s) && FollowerAdmitted(s) && EngagedModes(s))
      && (Handed(s, s') ==> SameConnections(s))
  {
    ReachableInv(states, k);
    ReachableModes(states, k);
    assert StepsTo(states[k], states[k + 1]);
    var a :| Possible(states[k], a) && Next(states[k], a) == states[k + 1];
    EngagingStep(states[k], a);
  }

  /** A rollback commands no arm that has been connected anew: when it pauses and holds the follower, and
      when it floats the leader, the arm is on the connection of the engagement that is undone. */
  lemma RollbackSparesNewConnections(states: seq<State>, k: nat, t: Thread)
    requires Behavior(states) && k < |states| && t in states[k].threads && states[k].threads[t].Cleaning?
    ensures var s := states[k]; var r := s.threads[t].clean;
      && s.pair.armGenerations.Some? && !s.pair.engaged
      && (r.PauseFollower? || r.HoldFollower? ==> s.follower.generation == s.pair.armGenerations.value.1)
      && (r.FloatLeader? ==> s.leader.generation == s.pair.armGenerations.value.0)
  {
    ReachableInv(states, k);
    ReachableModes(states, k);
    assert ThreadInv(states[k], t, states[k].threads[t]);
  }

  /** While an engage aligns the pair, the follower does not listen to the leader, and from the
      validation of the states on the leader floats; in particular whenever a command is sent. */
  lemma AlignmentIsQuiet(states: seq<State>, k: nat, t: Thread)
    requires Behavior(states) && k < |states| && t in states[k].threads && states[k].threads[t].Align?
    ensures var s := states[k]; var step := s.threads[t].step;
      && (FollowerAdmitted(s) && !step.Pause? ==> !s.follower.live)
      && (LeaderAdmitted(s) && (step.Validate? || step.Sample? || step.Compare? || step.Command?) ==> s.leader.gravity)
      && !s.pair.engaged
  {
    ReachableInv(states, k);
    ReachableModes(states, k);
    assert ThreadInv(states[k], t, states[k].threads[t]);
  }
}
