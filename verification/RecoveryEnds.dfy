/** Every emergency recovery comes to an end, whatever the joints report and whichever commands
    fail, and exactly which configurations this depends on. */
module RecoveryEnds {
  import opened Wrappers
  import opened Control
  import opened ReadyMove
  import opened Device
  import opened ControlNode
  import opened RecoveryOrder
  import ReadTriage

  /** Nobody overrides the recovery. */
  predicate Undisturbed(inp: StepInput) {
    forall i :: 0 <= i < |inp.messages| ==> !inp.messages[i].Stop? && !inp.messages[i].MoveToReadyAndStop?
  }

  /** An arm on its slow way home. */
  predicate Slow(a: Arm) {
    && a.recovery.state.MovingSlow? && !a.recovery.closed && !a.ready && !a.command.state.Pending?
    && a.topic.running && !a.move.progress.done
    && (a.move.progress.initCount == 0 || Running(a.move.progress))
  }

  /** What one step does to it: the recovery ends, or the move gets closer to its end, or the
      feed-forward failed and nothing has happened but that time has passed. */
  predicate Nearer(a: Arm, b: Arm) {
    || b.recovery.state.Completed?
    || (Slow(b) && b.move.progress.initCount >= 1
        && (a.move.progress.initCount == 0 || 0 < CallsLeft(b.move.progress) < CallsLeft(a.move.progress)))
  }

  predicate Stuck(c: Config, a: Arm, b: Arm, inp: StepInput) {
    && Slow(b) && b.move.progress == a.move.progress && b.recovery == a.recovery
    && c.feedForward && !inp.feedForward.Success? && !Stale(c, a, inp)
  }

  lemma PrepareSlow(a: Arm, inp: StepInput)
    requires Slow(a) || (a.recovery.state.Requested? && !a.recovery.closed && a.topic.running)
    ensures Slow(PreparePhase(a, inp))
    ensures Slow(a) ==> PreparePhase(a, inp) == a
    ensures a.recovery.state.Requested? ==> PreparePhase(a, inp).move.progress.initCount == 0
  {
  }

  /** The fields that matter here. */
  predicate Alike(a: Arm, b: Arm) {
    && b.recovery == a.recovery && b.ready == a.ready && b.command == a.command
    && b.topic.running == a.topic.running && b.move.progress == a.move.progress
  }

  lemma ProgressAlike(a: Arm, inp: StepInput)
    ensures Alike(a, ProgressPhase(a, inp))
  {
  }

  lemma DispatchAlike(c: Config, a: Arm, msg: Message, inp: StepInput)
    requires InRecovery(a) && !msg.Stop? && !msg.MoveToReadyAndStop?
    ensures Dispatch(c, a, msg, inp) == a
  {
  }

  lemma {:induction false} DispatchAllAlike(c: Config, a: Arm, inp: StepInput, n: nat)
    requires InRecovery(a) && Undisturbed(inp) && n <= |inp.messages|
    ensures DispatchAll(c, a, inp, n) == a
  {
    if n > 0 {
      DispatchAllAlike(c, a, inp, n - 1);
      DispatchAlike(c, a, inp.messages[n - 1], inp);
    }
  }

  /** The end of a step refreshes the heartbeat at most. */
  lemma FinishAlike(c: Config, a: Arm, inp: StepInput)
    requires InRecovery(a) && Undisturbed(inp)
    ensures var b := FinishPhase(c, a, inp).arm;
      b.recovery.heartbeat == a.recovery.heartbeat || b.recovery.heartbeat == inp.endMs
    ensures var b := FinishPhase(c, a, inp).arm;
      Alike(a, b.(recovery := b.recovery.(heartbeat := a.recovery.heartbeat)))
  {
    hide Dispatch;
    DispatchAllAlike(c, PublishObservation(c, a, inp).arm, inp, |inp.messages|);
  }

  lemma MoveNearer(c: Config, a: Arm, inp: StepInput)
    requires Slow(a) && !(c.feedForward && !inp.feedForward.Success?)
    ensures Nearer(a, MoveToReadyPosition(c, a, inp).arm)
    ensures InRecovery(MoveToReadyPosition(c, a, inp).arm)
  {
    hide Tick, TickCode, StepLength, CallsLeft, Running, StopTopic, Emit;
    TickProgress(a.move, StepLength(c, a), inp.codes);
    if a.move.progress.initCount >= 1 {
      StartedOrNot(a.move, StepLength(c, a));
    }
  }

  lemma StartedOrNot(m: Move, step: real)
    requires m.progress.initCount >= 1
    ensures Ready(m, step).progress == m.progress
  {
  }

  lemma ArrivedNearer(c: Config, a: Arm, b: Arm, inp: StepInput)
    requires Nearer(a, b) && b.ready
    ensures Nearer(a, Arrived(c, b, inp)) && Arrived(c, b, inp).recovery == b.recovery
  {
  }

  lemma ActNearer(c: Config, a: Arm, inp: StepInput)
    requires Slow(a) && !(c.feedForward && !inp.feedForward.Success?)
    ensures Nearer(a, ActPhase(c, a, inp).arm) && InRecovery(ActPhase(c, a, inp).arm)
  {
    hide MoveToReadyPosition, Arrived, Nearer;
    MoveNearer(c, a, inp);
    var b := MoveToReadyPosition(c, a, inp).arm;
    if b.ready {
      ArrivedNearer(c, a, b, inp);
    }
  }

  lemma FinishNearer(c: Config, a: Arm, b: Arm, inp: StepInput)
    requires Nearer(a, b) && InRecovery(b) && Undisturbed(inp)
    ensures Nearer(a, FinishPhase(c, b, inp).arm)
  {
    hide FinishPhase;
    FinishAlike(c, b, inp);
  }

  /** From the reading of the joints to the end of the step. */
  function AfterReading(c: Config, a: Arm, inp: StepInput): Outcome {
    var r1 := CheckTimeout(c, PreparePhase(a, inp), inp);
    if r1.Return? then r1
    else
      var r2 := ActPhase(c, ProgressPhase(r1.arm, inp), inp);
      if r2.Return? then r2 else FinishPhase(c, r2.arm, inp)
  }

  lemma SlowStep(c: Config, a: Arm, inp: StepInput)
    requires Slow(a) && Undisturbed(inp)
    ensures Nearer(a, AfterReading(c, a, inp).arm) || Stuck(c, a, AfterReading(c, a, inp).arm, inp)
  {
    hide PreparePhase, ProgressPhase, ActPhase, FinishPhase, Running, CallsLeft, StopTopic, Emit;
    PrepareSlow(a, inp);
    if !Stale(c, a, inp) {
      ProgressAlike(a, inp);
      var p := ProgressPhase(a, inp);
      assert Slow(p);
      if c.feedForward && !inp.feedForward.Success? {
        FeedForwardFails(c, p, inp);
      } else {
        ActNearer(c, p, inp);
        FinishNearer(c, p, ActPhase(c, p, inp).arm, inp);
      }
    }
  }

  lemma FeedForwardFails(c: Config, a: Arm, inp: StepInput)
    requires Slow(a) && c.feedForward && !inp.feedForward.Success?
    ensures ActPhase(c, a, inp) == Return(a, inp.feedForward)
  {
  }

  lemma ReadKeepsSlow(a: Arm, inp: StepInput)
    requires InRecovery(a)
    ensures ReadPhase(a, inp).Go? && Alike(a, ReadPhase(a, inp).arm)
  {
  }

  lemma StepIsAfterReading(c: Config, a: Arm, inp: StepInput)
    requires InRecovery(a)
    ensures ArmStep(c, a, inp) == AfterReading(c, ReadPhase(a, inp).arm, inp)
  {
    hide PreparePhase, CheckTimeout, ProgressPhase, ActPhase, FinishPhase, Read;
  }

  lemma AnnounceAlike(c: Config, n: Node)
    ensures Alike(n.arm, Announce(c, n).arm)
  {
  }

  /** One turn of the main loop during a recovery. */
  lemma SlowTurn(c: Config, n: Node, inp: NodeInput)
    requires Slow(n.arm) && Undisturbed(inp.step)
    ensures Nearer(n.arm, Turn(c, n, inp).arm) || Stuck(c, n.arm, Turn(c, n, inp).arm, inp.step)
  {
    hide ArmStep, AfterReading, Announce, ReadPhase, Running, CallsLeft;
    var a := n.arm;
    ReadKeepsSlow(a, inp.step);
    StepIsAfterReading(c, a, inp.step);
    SlowStep(c, ReadPhase(a, inp.step).arm, inp.step);
    AnnounceAlike(c, n.(arm := Supervised(c, a, inp)));
  }

  /** The turn after the one that began the recovery. */
  lemma FirstTurn(c: Config, n: Node, inp: NodeInput)
    requires n.arm.recovery.state.Requested? && !n.arm.recovery.closed && n.arm.topic.running
    requires Undisturbed(inp.step)
    ensures Turn(c, n, inp).arm.recovery.state.Completed? || Slow(Turn(c, n, inp).arm)
  {
    hide ArmStep, AfterReading, Announce, ReadPhase, Running, CallsLeft, PreparePhase;
    var a := n.arm;
    ReadKeepsSlow(a, inp.step);
    StepIsAfterReading(c, a, inp.step);
    var b := ReadPhase(a, inp.step).arm;
    PrepareSlow(b, inp.step);
    PrepareSlow(PreparePhase(b, inp.step), inp.step);
    PreparedOnce(c, b, inp.step);
    SlowStep(c, PreparePhase(b, inp.step), inp.step);
    AnnounceAlike(c, n.(arm := Supervised(c, a, inp)));
  }

  lemma PreparedOnce(c: Config, a: Arm, inp: StepInput)
    requires PreparePhase(PreparePhase(a, inp), inp) == PreparePhase(a, inp)
    ensures AfterReading(c, a, inp) == AfterReading(c, PreparePhase(a, inp), inp)
  {
    hide PreparePhase, CheckTimeout, ProgressPhase, ActPhase, FinishPhase;
  }

  // ----- whole recoveries -----

  /** The clock of the watchdog gets beyond every bound. */
  ghost predicate Ticking(ins: nat -> NodeInput) {
    forall k: nat, bound: int :: Reaches(ins, k, bound)
  }

  ghost predicate Reaches(ins: nat -> NodeInput, k: nat, bound: int) {
    exists m: nat :: m >= k && ins(m).step.checkMs >= bound
  }

  ghost predicate UndisturbedFrom(ins: nat -> NodeInput, k: nat) {
    forall j: nat :: k <= j ==> Undisturbed(ins(j).step)
  }

  /** Nothing can hold the move up for ever: the watchdog is armed, or the feed-forward works. */
  ghost predicate Guarded(c: Config, ins: nat -> NodeInput) {
    c.timeoutMs > 0 || !c.feedForward || forall k: nat :: ins(k).step.feedForward.Success?
  }

  /** At turn `m` the heartbeat of `a` would be stale. */
  predicate StaleAt(c: Config, a: Arm, ins: nat -> NodeInput, m: nat) {
    ins(m).step.checkMs - a.recovery.heartbeat >= c.timeoutMs
  }

  function CallsAhead(p: Progress): nat {
    if p.initCount == 0 || CallsLeft(p) < 0 then 0 else CallsLeft(p)
  }

  lemma SomeTimeStale(c: Config, a: Arm, ins: nat -> NodeInput, j: nat) returns (m: nat)
    requires Ticking(ins)
    ensures m >= j && StaleAt(c, a, ins, m)
  {
    assert Reaches(ins, j, a.recovery.heartbeat + c.timeoutMs);
    m :| m >= j && ins(m).step.checkMs >= a.recovery.heartbeat + c.timeoutMs;
  }

  /** A slow move home ends.  The measure: whether the budget has been set, the calls left, the
      turns until the watchdog fires, which it would at turn `m`. */
  lemma {:induction false} SlowMoveEnds(c: Config, n: Node, ins: nat -> NodeInput, j: nat, m: nat) returns (k: nat)
    requires Slow(Run(c, n, ins, j).arm) && m >= j && StaleAt(c, Run(c, n, ins, j).arm, ins, m)
    requires Ticking(ins) && UndisturbedFrom(ins, j) && Guarded(c, ins)
    ensures k > j && Run(c, n, ins, k).arm.recovery.state.Completed?
    decreases if Run(c, n, ins, j).arm.move.progress.initCount == 0 then 1 else 0,
              CallsAhead(Run(c, n, ins, j).arm.move.progress), m - j
  {
    hide Turn, CallsLeft, Running, Ticking;
    var a := Run(c, n, ins, j).arm;
    var b := Run(c, n, ins, j + 1).arm;
    SlowTurn(c, Run(c, n, ins, j), ins(j));
    if b.recovery.state.Completed? {
      k := j + 1;
    } else if Stuck(c, a, b, ins(j).step) {
      k := SlowMoveEnds(c, n, ins, j + 1, m);
    } else {
      var later := SomeTimeStale(c, b, ins, j + 1);
      k := SlowMoveEnds(c, n, ins, j + 1, later);
    }
  }

  /** Every recovery of a node ends with the shutdown announced and the topic stopped. */
  lemma EveryRecoveryEnds(c: Config, n: Node, ins: nat -> NodeInput, j: nat) returns (k: nat)
    requires n.arm.recovery.state.NoRecovery? && n.arm.topic.events == []
    requires Run(c, n, ins, j).arm.recovery.state.Requested? && Run(c, n, ins, j).arm.topic.running
    requires Ticking(ins) && UndisturbedFrom(ins, j) && Guarded(c, ins)
    ensures k > j
    ensures var a := Run(c, n, ins, k).arm; a.recovery.state.Completed? && !a.topic.running
    ensures PhaseOf(Run(c, n, ins, k).arm.topic.events).Closed?
  {
    hide Turn, Slow, PhaseOf, Ticking;
    EventsInOrder(c, n, ins, j);
    FirstTurn(c, Run(c, n, ins, j), ins(j));
    if Run(c, n, ins, j + 1).arm.recovery.state.Completed? {
      k := j + 1;
    } else {
      var m := SomeTimeStale(c, Run(c, n, ins, j + 1).arm, ins, j + 1);
      k := SlowMoveEnds(c, n, ins, j + 1, m);
    }
    EventsInOrder(c, n, ins, k);
  }

  // ----- the configurations for which this holds unconditionally -----

  /** In this configuration every undisturbed recovery ends, whatever the hardware does. */
  ghost predicate AlwaysEnds(c: Config) {
    forall n: Node, ins: nat -> NodeInput, j: nat | RecoveryBegins(c, n, ins, j) :: EndsSomeTime(c, n, ins)
  }

  /** A run from a healthy start in which a recovery has been entered after `j` turns. */
  ghost predicate RecoveryBegins(c: Config, n: Node, ins: nat -> NodeInput, j: nat) {
    && n.arm.recovery.state.NoRecovery? && n.arm.topic.events == []
    && Run(c, n, ins, j).arm.recovery.state.Requested? && Run(c, n, ins, j).arm.topic.running
    && Ticking(ins) && UndisturbedFrom(ins, j)
  }

  ghost predicate EndsSomeTime(c: Config, n: Node, ins: nat -> NodeInput) {
    exists k: nat :: Run(c, n, ins, k).arm.recovery.state.Completed?
  }

  /** A joint at rest, an arm made of it, and a stream in which its servo falls silent and the
      feed-forward cannot be computed. */
  function RestingArm(): Arm {
    var j := Joint(1, 0.0, 0.0, 1.0, -1.0, 1.0, 0.0, 0.0, 0.0, 0.0, 0.0, 0, false, 0.0, 0, {0.0}, {0.0}, true);
    Arm(Move([j], Progress(true, 1, 0, 0, 0), {}), true, Command(Idle, 0, 0, false),
        Recovery(NoRecovery, false, false, 0), Topic(true, true, 0, 0, []), None, false, None)
  }

  function Silence(k: nat): NodeInput {
    var none := (i: nat) => None;
    var lost := ReadTriage.Verdict(SafeModeSig, {});
    var lostCode := (i: nat) => SafeModeSig;
    NodeInput(
      StepInput(none, lost, true, true, true, k, k, k, k, 0.0, 0.0, 0.0, Other(1), lostCode,
                (i: nat) => false, (i: nat) => Safety(false, None),
                false, Success, Success, Success, Success, [], None, None, Success, false,
                EffectorInput(none, lost, lostCode, Success, Success)), 1)
  }

  lemma SilenceStartsRecovery(c: Config)
    ensures var n := Node(RestingArm(), false, 0);
      var a := Run(c, n, Silence, 1).arm; a.recovery.state.Requested? && a.topic.running && !a.recovery.closed
  {
    var n := Node(RestingArm(), false, 0);
    assert Run(c, n, Silence, 0) == n;
    assert Run(c, n, Silence, 1) == Turn(c, n, Silence(0));
    var r := ArmStep(c, n.arm, Silence(0).step);
    assert ReadPhase(n.arm, Silence(0).step).Return?;
  }

  lemma SilenceNeverHelps(c: Config, n: Node, k: nat)
    requires c.timeoutMs <= 0 && c.feedForward
    requires (n.arm.recovery.state.Requested? && !n.arm.recovery.closed && n.arm.topic.running) || Slow(n.arm)
    ensures Slow(Turn(c, n, Silence(k)).arm)
  {
    hide ArmStep, Announce, ReadPhase, Running, CallsLeft, PreparePhase, ActPhase, ProgressPhase, FinishPhase;
    var inp := Silence(k).step;
    var a := n.arm;
    ReadKeepsSlow(a, inp);
    StepIsAfterReading(c, a, inp);
    var b := ReadPhase(a, inp).arm;
    PrepareSlow(b, inp);
    var d := PreparePhase(b, inp);
    ProgressAlike(d, inp);
    FeedForwardFails(c, ProgressPhase(d, inp), inp);
    AnnounceAlike(c, n.(arm := Supervised(c, a, Silence(k))));
  }

  lemma {:induction false} SilenceGoesOn(c: Config, n: Node, k: nat)
    requires c.timeoutMs <= 0 && c.feedForward && n == Node(RestingArm(), false, 0)
    ensures !Run(c, n, Silence, k).arm.recovery.state.Completed?
    ensures k >= 2 ==> Slow(Run(c, n, Silence, k).arm)
  {
    hide Turn, Slow, Silence;
    if k >= 2 {
      SilenceGoesOn(c, n, k - 1);
      SilenceStartsRecovery(c);
      SilenceNeverHelps(c, Run(c, n, Silence, k - 1), k - 1);
      SlowIsNotCompleted(Run(c, n, Silence, k).arm);
    } else if k == 1 {
      SilenceStartsRecovery(c);
    }
  }

  lemma SlowIsNotCompleted(a: Arm)
    requires Slow(a)
    ensures !a.recovery.state.Completed?
  {
  }

  lemma SilenceTicks()
    ensures Ticking(Silence)
  {
    forall k: nat, bound: int ensures Reaches(Silence, k, bound) {
      var m: nat := if bound > k then bound else k;
      assert Silence(m).step.checkMs >= bound;
    }
  }

  /** Recoveries are certain to end exactly when the watchdog is armed or no feed-forward is
      computed: with the watchdog disabled, a feed-forward that keeps failing keeps the arm
      where it is. */
  lemma AlwaysEndsIff(c: Config)
    ensures AlwaysEnds(c) <==> c.timeoutMs > 0 || !c.feedForward
  {
    hide Run;
    if c.timeoutMs > 0 || !c.feedForward {
      forall n: Node, ins: nat -> NodeInput, j: nat | RecoveryBegins(c, n, ins, j)
        ensures EndsSomeTime(c, n, ins)
      {
        var k := EveryRecoveryEnds(c, n, ins, j);
      }
    } else {
      var n := Node(RestingArm(), false, 0);
      SilenceStartsRecovery(c);
      SilenceTicks();
      forall k: nat ensures !Run(c, n, Silence, k).arm.recovery.state.Completed? {
        SilenceGoesOn(c, n, k);
      }
      assert RecoveryBegins(c, n, Silence, 1);
    }
  }
}
