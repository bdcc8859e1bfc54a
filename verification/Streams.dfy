/** Where the buffered targets of an arm come from, and that an arm that does not listen, or is in
    recovery, does not depend on what is streamed to it. */
module Streams {
  import opened Control
  import opened ReadyMove
  import opened Device
  import opened ControlNode
  import opened RecoveryOrder
  import opened JointStep
  import opened Commands
  import Slew

  // ----- where targets come from -----

  /** Every joint is to go where the stream says. */
  ghost predicate Aimed(b: Arm, targets: nat -> real) {
    forall i :: 0 <= i < |b.move.joints| ==> b.move.joints[i].tele == targets(i)
  }

  /** A follower outside recovery that owns its motion: no requested move waits or is under way. */
  predicate OwnsMotion(c: Config, d: Arm) { c.role.Follower? && !InRecovery(d) && d.command.state.Idle? }

  /** The end of a step, after its commands: a direct target wins over the leader's stream, which counts
      only while the arm listens; neither counts once the topic has stopped or during recovery, and the
      direct one only if no requested move owns the arm. */
  lemma AimsIff(c: Config, d: Arm, inp: StepInput)
    requires !SilencePauses(c, d, inp)
    ensures var b := ClientWatchdog(c, TakeTargets(c, d, inp), inp);
      && |b.move.joints| == |d.move.joints|
      && (inp.direct.Some? && d.topic.running && OwnsMotion(c, d) ==> Aimed(b, inp.direct.value))
      && (!(inp.direct.Some? && d.topic.running && OwnsMotion(c, d)) ==>
            if inp.live.Some? && d.topic.running && !InRecovery(d) && (c.role.Leader? || d.topic.listening)
            then Aimed(b, inp.live.value) else b == d)
  {
  }

  /** A follower whose client has fallen silent is parked, whatever is streamed to it, and listens no
      longer, unless it floats and cannot leave the float. */
  lemma SilentParks(c: Config, d: Arm, inp: StepInput)
    requires SilencePauses(c, d, inp) && (d.floating ==> inp.holdMode.Success?)
    ensures var b := ClientWatchdog(c, TakeTargets(c, d, inp), inp);
      && !b.topic.listening && !b.floating && |b.move.joints| == |d.move.joints| && Parked(b)
      && forall i :: 0 <= i < |d.move.joints| ==> b.move.joints[i].pos == d.move.joints[i].pos
  {
  }

  // ----- independence of the streams -----

  /** Two inputs that differ in what is streamed only. */
  ghost predicate SameButStreams(inp: StepInput, other: StepInput) {
    other == inp.(live := other.live, direct := other.direct)
  }

  lemma SameReading(a: Arm, inp: StepInput, other: StepInput)
    requires SameButStreams(inp, other)
    ensures ReadPhase(a, other) == ReadPhase(a, inp)
  {
    assert ReadJoints(a.move.joints, other) == ReadJoints(a.move.joints, inp);
  }

  lemma SamePrepare(a: Arm, inp: StepInput, other: StepInput)
    requires SameButStreams(inp, other)
    ensures PreparePhase(a, other) == PreparePhase(a, inp)
  {
    hide Rebase, FollowerMode, ResetReady;
  }

  lemma SameProgress(a: Arm, inp: StepInput, other: StepInput)
    requires SameButStreams(inp, other)
    ensures ProgressPhase(a, other) == ProgressPhase(a, inp)
  {
    hide ReadyMoveSource;
  }

  lemma SameTimeout(c: Config, a: Arm, inp: StepInput, other: StepInput)
    requires SameButStreams(inp, other)
    ensures CheckTimeout(c, a, other) == CheckTimeout(c, a, inp)
  {
    hide MarkCompleted;
  }

  lemma SameMove(c: Config, a: Arm, inp: StepInput, other: StepInput)
    requires SameButStreams(inp, other)
    ensures MoveToReadyPosition(c, a, other) == MoveToReadyPosition(c, a, inp)
  {
    hide Tick, TickCode, AllRebased, AllCleared, CommandedUpTo, Attempts, LoopCode;
  }

  lemma SameOperation(c: Config, a: Arm, inp: StepInput, other: StepInput)
    requires SameButStreams(inp, other)
    ensures OperateAsFollower(c, a, other) == OperateAsFollower(c, a, inp)
  {
    hide Slew.Tick, AllRebased, AllCleared, CommandedUpTo, Attempts, LoopCode;
  }

  lemma SameAct(c: Config, a: Arm, inp: StepInput, other: StepInput)
    requires SameButStreams(inp, other)
    ensures ActPhase(c, a, other) == ActPhase(c, a, inp)
  {
    hide MoveToReadyPosition, OperateAsFollower, AllRebased, AllCleared;
    SameMove(c, a, inp, other);
    SameOperation(c, Restore(c, a, inp), inp, other);
  }

  lemma SameDispatch(c: Config, a: Arm, msg: Message, inp: StepInput, other: StepInput)
    requires SameButStreams(inp, other)
    ensures Dispatch(c, a, msg, other) == Dispatch(c, a, msg, inp)
  {
    hide AllRebased, AllCleared;
  }

  lemma {:induction false} SameBatch(c: Config, a: Arm, inp: StepInput, other: StepInput, n: nat)
    requires SameButStreams(inp, other) && n <= |inp.messages|
    ensures DispatchAll(c, a, other, n) == DispatchAll(c, a, inp, n)
  {
    hide Dispatch;
    if n > 0 {
      SameBatch(c, a, inp, other, n - 1);
      SameDispatch(c, DispatchAll(c, a, inp, n - 1), inp.messages[n - 1], inp, other);
    }
  }

  /** Neither input brings a target in time for the arm after its commands. */
  predicate TakesNothing(c: Config, d: Arm, inp: StepInput) { !TakesLive(c, d, inp) && !TakesDirect(c, d, inp) }

  lemma SamePublish(c: Config, a: Arm, inp: StepInput, other: StepInput)
    requires SameButStreams(inp, other)
    ensures PublishObservation(c, a, other) == PublishObservation(c, a, inp)
  {
  }

  lemma SameWatchdog(c: Config, a: Arm, inp: StepInput, other: StepInput)
    requires SameButStreams(inp, other)
    ensures ClientWatchdog(c, a, other) == ClientWatchdog(c, a, inp)
  {
    hide ResetSlew, Rebase;
  }

  lemma SameTargets(c: Config, d: Arm, inp: StepInput, other: StepInput)
    requires SameButStreams(inp, other)
    requires || (TakesNothing(c, d, inp) && TakesNothing(c, d, other))
             || (other.direct == inp.direct && !TakesLive(c, d, inp) && !TakesLive(c, d, other))
    ensures TakeTargets(c, d, other) == TakeTargets(c, d, inp)
  {
    hide AllAimed;
  }

  lemma SameFinish(c: Config, a: Arm, inp: StepInput, other: StepInput)
    requires SameButStreams(inp, other)
    requires var d := DispatchAll(c, PublishObservation(c, a, inp).arm, inp, |inp.messages|);
      || (TakesNothing(c, d, inp) && TakesNothing(c, d, other))
      || (other.direct == inp.direct && !TakesLive(c, d, inp) && !TakesLive(c, d, other))
    ensures FinishPhase(c, a, other) == FinishPhase(c, a, inp)
  {
    hide DispatchAll, PublishObservation, TakeTargets, ClientWatchdog, TakesLive, TakesDirect;
    SamePublish(c, a, inp, other);
    var b := PublishObservation(c, a, inp).arm;
    SameBatch(c, b, inp, other, |inp.messages|);
    var d := DispatchAll(c, b, inp, |inp.messages|);
    SameTargets(c, d, inp, other);
    SameWatchdog(c, TakeTargets(c, d, inp), inp, other);
  }

  lemma SameStep(c: Config, a: Arm, inp: StepInput, other: StepInput)
    requires SameButStreams(inp, other)
    requires RunsToEnd(c, a, inp) ==>
      var d := AfterCommands(c, a, inp);
      || (TakesNothing(c, d, inp) && TakesNothing(c, d, other))
      || (other.direct == inp.direct && !TakesLive(c, d, inp) && !TakesLive(c, d, other))
    ensures Step(c, a, other) == Step(c, a, inp)
  {
    hide ReadPhase, PreparePhase, ProgressPhase, CheckTimeout, ActPhase, FinishPhase, DispatchAll, TakesLive,
         TakesDirect;
    SameReading(a, inp, other);
    var r := ReadPhase(a, inp).arm;
    SamePrepare(r, inp, other);
    SameTimeout(c, PreparePhase(r, inp), inp, other);
    SameProgress(CheckTimeout(c, PreparePhase(r, inp), inp).arm, inp, other);
    GoesOnSame(c, PreparePhase(r, inp), inp);
    SameAct(c, Acting(a, inp), inp, other);
    var d := ActPhase(c, Acting(a, inp), inp);
    if RunsToEnd(c, a, inp) {
      SameFinish(c, d.arm, inp, other);
    } else if GetsToAct(c, a, inp) && d.Go? {
      SameReturn(c, d.arm, inp, other);
    }
  }

  lemma GoesOnSame(c: Config, a: Arm, inp: StepInput)
    ensures CheckTimeout(c, a, inp).Go? ==> CheckTimeout(c, a, inp).arm == a
  {
  }

  /** A step that does not get through to the commands ends before anything is taken from a stream. */
  lemma SameReturn(c: Config, a: Arm, inp: StepInput, other: StepInput)
    requires SameButStreams(inp, other)
    requires !(inp.write.Success? && (inp.observe.Success? || (c.role.Leader? && InRecovery(a))))
    ensures FinishPhase(c, a, other) == FinishPhase(c, a, inp)
  {
    hide DispatchAll, TakeTargets, ClientWatchdog;
  }

  lemma SameTurn(c: Config, n: Node, inp: NodeInput, other: StepInput)
    requires Step(c, n.arm, other) == Step(c, n.arm, inp.step) && SameButStreams(inp.step, other)
    ensures Turn(c, n, inp.(step := other)) == Turn(c, n, inp)
  {
    hide Step, EffectorStep, Announce;
  }

  // ----- whole runs -----

  /** The two runs are fed alike before turn `j`, and from then on but for the streams. */
  ghost predicate FedAlike(ins: nat -> NodeInput, others: nat -> NodeInput, j: nat) {
    forall i: nat ::
      && others(i) == ins(i).(step := others(i).step) && SameButStreams(ins(i).step, others(i).step)
      && (i < j ==> others(i) == ins(i))
  }

  lemma AfterCommandsInRecovery(c: Config, a: Arm, inp: StepInput)
    requires InRecovery(a) && InOrder(a)
    ensures InRecovery(AfterCommands(c, a, inp))
  {
    hide Acting, PreparePhase, ReadPhase, ActPhase, DispatchAll, InOrder;
    ActingStops(a, inp);
    ActingTakenUp(a, inp);
    ActInOrder(c, Acting(a, inp), inp);
    var d := ActPhase(c, Acting(a, inp), inp).arm;
    PublishKeepsTopic(c, d, inp);
    BatchStops(c, PublishObservation(c, d, inp).arm, inp, |inp.messages|);
  }

  lemma ActingTakenUp(a: Arm, inp: StepInput)
    requires InOrder(a)
    ensures !Acting(a, inp).recovery.state.Requested?
  {
    hide Acting, PreparePhase, ReadPhase, PhaseOf;
    ActingStops(a, inp);
  }

  /** During a recovery nothing that is streamed to the arm matters: every run of the node is the same
      without it. */
  lemma {:induction false} RecoveryIgnoresStreams(c: Config, n: Node, ins: nat -> NodeInput, others: nat -> NodeInput,
                                                  j: nat, k: nat)
    requires Healthy(n) && InRecovery(Run(c, n, ins, j).arm) && FedAlike(ins, others, j)
    ensures Run(c, n, others, k) == Run(c, n, ins, k)
  {
    hide Run, Turn, Step, InOrder, AfterCommands, RunsToEnd, SameButStreams;
    if k == 0 {
      RunAtStart(c, n, ins);
      RunAtStart(c, n, others);
    } else {
      RecoveryIgnoresStreams(c, n, ins, others, j, k - 1);
      RunTurn(c, n, ins, k);
      RunTurn(c, n, others, k);
      var m, inp, other := Run(c, n, ins, k - 1), ins(k - 1), others(k - 1).step;
      if j <= k - 1 {
        NeverBackToNormal(c, n, ins, j, k - 1);
        EventsInOrder(c, n, ins, k - 1);
        AfterCommandsInRecovery(c, m.arm, inp.step);
        SameStep(c, m.arm, inp.step, other);
        SameTurn(c, m, inp, other);
      }
    }
  }

  /** Nobody tells the arm to listen again in the turns from `j` on and before `k`. */
  ghost predicate Unresumed(ins: nat -> NodeInput, j: nat, k: nat) {
    forall i: nat, m: nat :: j <= i < k && m < |ins(i).step.messages| ==> !ins(i).step.messages[m].ResumeListening?
  }

  lemma StaysDeaf(c: Config, n: Node, inp: NodeInput)
    requires c.role.Follower? && n.arm.topic.running && InOrder(n.arm) && !n.arm.topic.listening
    requires forall m: nat :: m < |inp.step.messages| ==> !inp.step.messages[m].ResumeListening?
    ensures !Turn(c, n, inp).arm.topic.listening
    ensures RunsToEnd(c, n.arm, inp.step) ==> !AfterCommands(c, n.arm, inp.step).topic.listening
  {
    hide Turn, Acting, PreparePhase, ReadPhase, ActPhase, DispatchAll, InOrder, SilencePauses, PublishObservation,
         RunsToEnd;
    TurnListensIff(c, n, inp);
    var a, s := n.arm, inp.step;
    ActingStops(a, s);
    ActKeepsListening(c, Acting(a, s), s);
    var d := ActPhase(c, Acting(a, s), s).arm;
    PublishKeepsTopic(c, d, s);
    HeardIs(c, PublishObservation(c, d, s).arm, s);
  }

  /** A follower that does not listen to its leader is not influenced by it: from then on, until it is
      told to listen again, every run is the same whatever the leader streams. */
  lemma {:induction false} PausedIgnoresLeader(c: Config, n: Node, ins: nat -> NodeInput, others: nat -> NodeInput,
                                               j: nat, k: nat)
    requires Healthy(n) && c.role.Follower? && j <= k && !Run(c, n, ins, j).arm.topic.listening
    requires FedAlike(ins, others, j) && (forall i: nat :: others(i).step.direct == ins(i).step.direct)
    requires Unresumed(ins, j, k)
    ensures Run(c, n, others, k) == Run(c, n, ins, k) && !Run(c, n, ins, k).arm.topic.listening
    decreases k
  {
    hide Run, Turn, Step, InOrder, AfterCommands, RunsToEnd, SameButStreams;
    if j == k {
      FedTheSame(c, n, ins, others, j, j);
    } else {
      PausedIgnoresLeader(c, n, ins, others, j, k - 1);
      RunTurn(c, n, ins, k);
      RunTurn(c, n, others, k);
      var m, inp, other := Run(c, n, ins, k - 1), ins(k - 1), others(k - 1).step;
      EventsInOrder(c, n, ins, k - 1);
      TurnIs(c, m, inp);
      TurnIs(c, m, others(k - 1));
      if m.arm.topic.running {
        StaysDeaf(c, m, inp);
        SameStep(c, m.arm, inp.step, other);
        SameTurn(c, m, inp, other);
      }
    }
  }

  lemma {:induction false} FedTheSame(c: Config, n: Node, ins: nat -> NodeInput, others: nat -> NodeInput,
                                      j: nat, k: nat)
    requires FedAlike(ins, others, j) && k <= j
    ensures Run(c, n, others, k) == Run(c, n, ins, k)
  {
    hide Turn, SameButStreams;
    if k > 0 {
      FedTheSame(c, n, ins, others, j, k - 1);
      assert others(k - 1) == ins(k - 1);
    }
  }
}
