/** When a recovery starts: exactly when a step fails, whatever the failure, and which failures there
    are. */
module RecoveryStarts {
  import opened Control
  import opened ReadyMove
  import opened CommandedMove
  import opened Device
  import opened ControlNode
  import opened RecoveryOrder
  import opened JointStep
  import Slew

  // ----- what makes a step fail -----

  /** The first `n` commands are accepted. */
  predicate AllAccepted(codes: nat -> ReturnCode, n: nat) { forall i: nat :: i < n ==> codes(i).Success? }

  /** Acting goes well: what the mode of the arm asks for succeeds.  A ready move forgets refusals but the
      last, the other loops none. */
  ghost predicate ActsWell(c: Config, a: Arm, inp: StepInput) {
    if a.ready then
      if c.role.Leader? then inp.leading.Success?
      else if Restore(c, a, inp).floating then inp.floating.Success?
      else !Starved(c, inp) && c.frequency > 0 && AllAccepted(inp.codes, |a.move.joints|)
    else
      || StaysHere(c, a)
      || (!Starved(c, inp)
          && if a.move.progress.done then AllAccepted(inp.codes, |a.move.joints|)
             else LastAccepted(a.move.joints, a.move.failed, inp.codes, |a.move.joints|))
  }

  ghost predicate EffectorActsWell(c: Config, e: Effector, inp: EffectorInput) {
    if e.move.progress.done && !e.command.state.Pending? then inp.operate.Success?
    else
      || (c.skipHome && e.command.state.Idle?)
      || LastAccepted(e.move.joints, inp.read.failed, inp.codes, |e.move.joints|)
  }

  /** Everything a step asks of the hardware and the bus succeeds. */
  ghost predicate AllWell(c: Config, a: Arm, inp: StepInput) {
    && inp.read.code.Success? && ActsWell(c, Acting(a, inp), inp) && inp.write.Success? && inp.observe.Success?
    && match Step(c, a, inp).arm.effector
       case None => true
       case Some(e) =>
         inp.effector.read.code.Success? && EffectorActsWell(c, e, inp.effector) && inp.effector.write.Success?
  }

  lemma {:induction false} AttemptsAre(codes: nat -> ReturnCode, n: nat)
    ensures LoopCode(codes, n).Success? <==> AllAccepted(codes, n)
    ensures Attempts(codes, n) == n <==> n == 0 || AllAccepted(codes, n - 1)
  {
    if n > 0 {
      AttemptsAre(codes, n - 1);
    }
  }

  lemma ActSucceedsIff(c: Config, a: Arm, inp: StepInput)
    requires !InRecovery(a)
    ensures ActPhase(c, a, inp).Go? <==> ActsWell(c, a, inp)
    ensures ActPhase(c, a, inp).Return? ==> !ActPhase(c, a, inp).code.Success?
  {
    hide Tick, TickCode, LastAccepted, AllAccepted, LoopCode, Attempts, Slew.Tick, AllRebased, AllCleared;
    AttemptsAre(inp.codes, |a.move.joints|);
    TickCodeIs(a.move, StepLength(c, a), inp.codes);
  }

  lemma EffectorSucceedsIff(c: Config, e: Effector, inp: EffectorInput)
    ensures EffectorStep(c, e, inp).code.Success? <==>
      inp.read.code.Success? && EffectorActsWell(c, e, inp) && inp.write.Success?
  {
    hide Tick, TickCode, LastAccepted, AllCleared;
    var b := e.(move := Move(Read(e.move.joints, inp.poses), e.move.progress, inp.read.failed));
    TickCodeIs(b.move, c.effectorStep, inp.codes);
    TickCodeIs(Restarted(b.move), c.effectorStep, inp.codes);
    SameServosAccepted(e.move.joints, b.move.joints, inp.read.failed, inp.codes);
  }

  lemma StepSucceedsIff(c: Config, a: Arm, inp: StepInput)
    requires !InRecovery(a) && InOrder(a)
    ensures Step(c, a, inp).code.Success? <==>
      inp.read.code.Success? && ActsWell(c, Acting(a, inp), inp) && inp.write.Success? && inp.observe.Success?
  {
    hide PreparePhase, ProgressPhase, ActPhase, DispatchAll, TakeTargets, ClientWatchdog, ActsWell, PhaseOf, ReadJoints;
    var r := ReadPhase(a, inp).arm;
    assert InOrder(r);
    PrepareInOrder(r, inp);
    ProgressInOrder(PreparePhase(r, inp), inp);
    ActSucceedsIff(c, Acting(a, inp), inp);
    ActInOrder(c, Acting(a, inp), inp);
  }

  /** A step outside recovery succeeds exactly when everything it asks for does. */
  lemma ArmStepSucceedsIff(c: Config, a: Arm, inp: StepInput)
    requires !InRecovery(a) && InOrder(a)
    ensures ArmStep(c, a, inp).code.Success? <==> AllWell(c, a, inp)
  {
    hide Step, ActsWell, EffectorStep, EffectorActsWell, InOrder;
    StepSucceedsIff(c, a, inp);
    if Step(c, a, inp).arm.effector.Some? {
      EffectorSucceedsIff(c, Step(c, a, inp).arm.effector.value, inp.effector);
    }
  }

  // ----- what a failing step starts -----

  /** How often an error has been announced. */
  function Errors(events: seq<Event>): nat {
    if |events| == 0 then 0
    else Errors(events[..|events| - 1]) + if events[|events| - 1].ErrorDetected? then 1 else 0
  }

  lemma {:induction false} ErrorsOfPhase(events: seq<Event>)
    requires !PhaseOf(events).Violated?
    ensures Errors(events) == if PhaseOf(events).Normal? then 0 else 1
  {
    if |events| > 0 {
      var front := events[..|events| - 1];
      assert !PhaseOf(front).Violated?;
      ErrorsOfPhase(front);
    }
  }

  /** The errors announced so far tell whether the arm is in recovery. */
  lemma ErrorsOfArm(a: Arm)
    requires InOrder(a)
    ensures Errors(a.topic.events) == if InRecovery(a) then 1 else 0
  {
    hide PhaseOf;
    ErrorsOfPhase(a.topic.events);
  }

  /** What the failing step of a turn leaves behind: a recovery that waits to be taken up, at the error
      velocity, deaf to the leader; of the servos only a silent one that can be named is given up. */
  ghost predicate RecoveryWaits(b: Arm, code: ReturnCode, joint: int) {
    && b.recovery.state.Requested? && b.recovery.slow && !b.recovery.closed && !b.topic.listening
    && forall s :: s in b.move.failed <==> code == SafeModeSig && s == joint && joint >= 0
  }

  /** In a turn of a running node outside recovery a recovery starts exactly when something fails that
      the step asks for; then one error is announced, and otherwise none. */
  lemma RecoveryStartsIff(c: Config, n: Node, inp: NodeInput)
    requires n.arm.topic.running && !InRecovery(n.arm) && InOrder(n.arm)
    ensures var b := Turn(c, n, inp).arm;
      && (InRecovery(b) <==> !AllWell(c, n.arm, inp.step))
      && (InRecovery(b) ==> RecoveryWaits(b, ArmStep(c, n.arm, inp.step).code, inp.joint))
      && Errors(n.arm.topic.events) == 0
      && Errors(b.topic.events) == if AllWell(c, n.arm, inp.step) then 0 else 1
  {
    hide ArmStep, Announce, PhaseOf, AllWell, Turn, Errors;
    ArmStepSucceedsIff(c, n.arm, inp.step);
    ArmStepInOrder(c, n.arm, inp.step);
    AnnounceAddsEvents(c, n.(arm := Supervised(c, n.arm, inp)));
    TurnIsSupervised(c, n, inp);
    TurnInOrder(c, n, inp);
    ErrorsOfArm(n.arm);
    ErrorsOfArm(Turn(c, n, inp).arm);
  }

  lemma TurnIsSupervised(c: Config, n: Node, inp: NodeInput)
    requires n.arm.topic.running
    ensures Turn(c, n, inp) == Announce(c, n.(arm := Supervised(c, n.arm, inp)))
  {
    hide Supervised, Announce;
  }

  // ----- whole runs -----

  /** Something fails in turn `j`. */
  ghost predicate FailsAt(c: Config, n: Node, ins: nat -> NodeInput, j: nat) {
    Run(c, n, ins, j).arm.topic.running && !AllWell(c, Run(c, n, ins, j).arm, ins(j).step)
  }

  /** Nothing fails in the first `k` turns. */
  ghost predicate WellUntil(c: Config, n: Node, ins: nat -> NodeInput, k: nat) {
    forall j: nat :: j < k ==> !FailsAt(c, n, ins, j)
  }

  /** In every run the node is in recovery exactly if something has failed in an earlier turn, and then
      exactly one error has been announced; otherwise none. */
  lemma {:induction false} InRecoveryIffFailed(c: Config, n: Node, ins: nat -> NodeInput, k: nat)
    requires Healthy(n)
    ensures InRecovery(Run(c, n, ins, k).arm) <==> !WellUntil(c, n, ins, k)
    ensures Errors(Run(c, n, ins, k).arm.topic.events) == if WellUntil(c, n, ins, k) then 0 else 1
  {
    hide Run, Turn, AllWell, InOrder, Errors;
    EventsInOrder(c, n, ins, k);
    ErrorsOfArm(Run(c, n, ins, k).arm);
    if k == 0 {
      RunAtStart(c, n, ins);
    } else {
      InRecoveryIffFailed(c, n, ins, k - 1);
      assert WellUntil(c, n, ins, k) <==> WellUntil(c, n, ins, k - 1) && !FailsAt(c, n, ins, k - 1);
      EventsInOrder(c, n, ins, k - 1);
      RunTurn(c, n, ins, k);
      var m := Run(c, n, ins, k - 1);
      if InRecovery(m.arm) {
        NeverBackToNormal(c, n, ins, k - 1, k);
      } else if m.arm.topic.running {
        RecoveryStartsIff(c, m, ins(k - 1));
      } else {
        TurnIs(c, m, ins(k - 1));
      }
    }
  }
}
