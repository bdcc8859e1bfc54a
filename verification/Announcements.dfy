/** What a node publishes while it runs, counted turn by turn: the progress of its moves, its
    observations, and its readiness. */
module Announcements {
  import opened Wrappers
  import opened Control
  import opened ReadyMove
  import opened Device
  import opened ControlNode
  import opened RecoveryOrder
  import opened JointStep
  import opened Commands

  /** How often `e` has been published. */
  ghost function Count(a: Arm, e: Event): nat { multiset(a.topic.events)[e] }

  /** The events counted here. */
  predicate Tracked(e: Event) {
    e.RecoveryInProgress? || e.ReadyMoveInProgress? || e.LeaderObservation? || e.FollowerObservation?
  }

  lemma EmitCounts(t: Topic, e: Event, other: Event)
    ensures multiset(Emit(t, e).events)[other] == multiset(t.events)[other] + if other == e then 1 else 0
  {
  }

  /** Nothing that is counted has been published, and the clocks of the progress are as they were. */
  ghost predicate Quiet(a: Arm, b: Arm, e: Event) {
    Count(b, e) == Count(a, e) && b.topic.recoveryPublished == a.topic.recoveryPublished
  }

  lemma BeginCommandQuiet(a: Arm, inp: StepInput, e: Event)
    requires Tracked(e)
    ensures Quiet(a, BeginCommand(a, inp), e) && BeginCommand(a, inp).topic.readyPublished == a.topic.readyPublished
  {
    hide AllCleared, AllRebased;
    EmitCounts(a.topic, MoveBegan(a.command.requestId), e);
  }

  lemma BeginRecoveryQuiet(a: Arm, inp: StepInput, e: Event)
    requires Tracked(e)
    ensures Quiet(a, BeginRecovery(a, inp), e) && BeginRecovery(a, inp).topic.readyPublished == a.topic.readyPublished
  {
    hide AllCleared, AllRebased;
    EmitCounts(a.topic, SlowMoveBegan, e);
  }

  lemma StopQuiet(t: Topic, e: Event)
    requires Tracked(e)
    ensures multiset(StopTopic(t).events)[e] == multiset(t.events)[e]
  {
    EmitCounts(t, TopicStop, e);
  }

  lemma MarkCompletedQuiet(a: Arm, e: Event)
    requires Tracked(e)
    ensures Quiet(a, MarkCompleted(a), e)
  {
    EmitCounts(a.topic, ShutdownAfterError, e);
    StopQuiet(Emit(a.topic, ShutdownAfterError), e);
  }

  lemma MoveJointsQuiet(c: Config, a: Arm, inp: StepInput, e: Event)
    requires Tracked(e)
    ensures Quiet(a, MoveJoints(c, a, inp).arm, e)
  {
    hide Tick, TickCode, CommandedUpTo, Attempts, LoopCode, MarkCompleted;
    MarkCompletedQuiet(a.(move := Tick(a.move, StepLength(c, a), inp.codes)), e);
  }

  lemma MoveQuiet(c: Config, a: Arm, inp: StepInput, e: Event)
    requires Tracked(e)
    ensures Quiet(a, MoveToReadyPosition(c, a, inp).arm, e)
  {
    hide MoveJoints, AllCleared;
    MoveJointsQuiet(c, a, inp, e);
  }

  lemma ArrivedQuiet(c: Config, a: Arm, inp: StepInput, e: Event)
    requires Tracked(e)
    ensures Quiet(a, Arrived(c, a, inp), e)
  {
    hide AllRebased;
    EmitCounts(a.topic, MoveEnded(a.command.requestId), e);
  }

  lemma RestoreQuiet(c: Config, a: Arm, inp: StepInput, e: Event)
    requires Tracked(e)
    ensures Quiet(a, Restore(c, a, inp), e)
  {
    hide AllRebased, AllCleared, StopTopic;
    StopQuiet(a.topic, e);
    StopKeepsClock(a.topic);
  }

  lemma StopKeepsClock(t: Topic)
    ensures StopTopic(t).recoveryPublished == t.recoveryPublished
  {
  }

  lemma ActQuiet(c: Config, a: Arm, inp: StepInput, e: Event)
    requires Tracked(e)
    ensures Quiet(a, ActPhase(c, a, inp).arm, e)
  {
    hide MoveToReadyPosition, Arrived, Restore, OperateAsFollower;
    MoveQuiet(c, a, inp, e);
    ArrivedQuiet(c, MoveToReadyPosition(c, a, inp).arm, inp, e);
    RestoreQuiet(c, a, inp, e);
    OperateKeepsTopic(c, Restore(c, a, inp), inp);
  }

  lemma HoldQuiet(a: Arm, inp: StepInput)
    ensures HoldNow(a, inp).topic == a.topic
  {
  }

  lemma DispatchQuiet(c: Config, a: Arm, msg: Message, inp: StepInput, e: Event)
    requires Tracked(e)
    ensures Quiet(a, Dispatch(c, a, msg, inp), e)
  {
    hide RequestMove, HoldNow, StopTopic;
    StopQuiet(a.topic, e);
    StopKeepsClock(a.topic);
    HoldQuiet(a, inp);
    if AsksMove(msg) {
      RequestQuiet(a, IdOf(msg), e);
      RequestQuiet(SetListening(c, a, false), IdOf(msg), e);
    }
  }

  lemma RequestQuiet(a: Arm, id: int, e: Event)
    requires Tracked(e)
    ensures Quiet(a, RequestMove(a, id), e)
  {
    EmitCounts(a.topic.(readyPublished := 0), RequestReceived(id), e);
  }

  lemma {:induction false} BatchQuiet(c: Config, a: Arm, inp: StepInput, n: nat, e: Event)
    requires n <= |inp.messages| && Tracked(e)
    ensures Quiet(a, DispatchAll(c, a, inp, n), e)
  {
    hide Dispatch;
    if n > 0 {
      BatchQuiet(c, a, inp, n - 1, e);
      DispatchQuiet(c, DispatchAll(c, a, inp, n - 1), inp.messages[n - 1], inp, e);
    }
  }

  // ----- one turn -----

  /** What a progress report of a ready move names as its cause. */
  predicate Reports(p: Arm, s: Source) {
    match s
    case Emergency => p.recovery.state.MovingSlow?
    case OnCommand => !InRecovery(p) && p.command.state.Moving?
    case Startup => !InRecovery(p) && p.command.state.Idle? && !p.ready
  }

  predicate OldEnough(now: int, last: int) { now - last >= EMERGENCY_PROGRESS_PUBLISH_INTERVAL_MS }

  /** The arm, with what waits taken up, publishes `e` when it is about to act. */
  predicate PublishesBefore(p: Arm, inp: StepInput, e: Event) {
    match e
    case RecoveryInProgress => p.recovery.state.MovingSlow? && OldEnough(inp.progressMs, p.topic.recoveryPublished)
    case ReadyMoveInProgress(s) => Reports(p, s) && OldEnough(inp.progressMs, p.topic.readyPublished)
    case _ => false
  }

  lemma RecoveryReported(p: Arm, inp: StepInput, e: Event)
    ensures var b := PublishRecoveryProgress(p, inp); var now := PublishesBefore(p, inp, RecoveryInProgress);
      && Count(b, e) == Count(p, e) + (if e.RecoveryInProgress? && now then 1 else 0)
      && b == p.(topic := b.topic) && b.topic.readyPublished == p.topic.readyPublished
      && b.topic.recoveryPublished == if now then inp.progressMs else p.topic.recoveryPublished
  {
    EmitCounts(p.topic.(recoveryPublished := inp.progressMs), RecoveryInProgress, e);
  }

  lemma ReadyReported(p: Arm, inp: StepInput, e: Event)
    ensures var b := PublishReadyProgress(p, inp);
      && Count(b, e) == Count(p, e) + (if e.ReadyMoveInProgress? && PublishesBefore(p, inp, e) then 1 else 0)
      && b.topic.recoveryPublished == p.topic.recoveryPublished
  {
    hide Count;
    var source := ReadyMoveSource(p);
    assert forall s :: Reports(p, s) <==> source == Some(s);
    if source.Some? {
      ReportCounts(p, inp, source.value, e);
    }
  }

  lemma ReportCounts(p: Arm, inp: StepInput, s: Source, e: Event)
    ensures var b := p.(topic := Emit(p.topic.(readyPublished := inp.progressMs), ReadyMoveInProgress(s)));
      Count(b, e) == Count(p, e) + if e == ReadyMoveInProgress(s) then 1 else 0
  {
    EmitCounts(p.topic.(readyPublished := inp.progressMs), ReadyMoveInProgress(s), e);
  }

  lemma ProgressCounts(p: Arm, inp: StepInput, e: Event)
    requires Tracked(e)
    ensures var b := ProgressPhase(p, inp);
      && Count(b, e) == Count(p, e) + (if PublishesBefore(p, inp, e) then 1 else 0)
      && b.topic.recoveryPublished ==
           if PublishesBefore(p, inp, RecoveryInProgress) then inp.progressMs else p.topic.recoveryPublished
  {
    hide Count, PublishRecoveryProgress, PublishReadyProgress;
    RecoveryReported(p, inp, e);
    ReadyReported(PublishRecoveryProgress(p, inp), inp, e);
  }

  /** The arm publishes `e` after it has acted. */
  predicate PublishesAfter(c: Config, a: Arm, inp: StepInput, e: Event) {
    match e
    case LeaderObservation => c.role.Leader? && !InRecovery(a)
    case FollowerObservation => c.role.Follower?
    case _ => false
  }

  lemma ObservationCounts(c: Config, a: Arm, inp: StepInput, e: Event)
    requires Tracked(e)
    ensures var r := PublishObservation(c, a, inp);
      && Count(r.arm, e) == Count(a, e) + (if r.Go? && PublishesAfter(c, a, inp, e) then 1 else 0)
      && r.arm.topic.recoveryPublished == a.topic.recoveryPublished
      && (r.Go? <==> inp.observe.Success? || (c.role.Leader? && InRecovery(a)))
  {
    EmitCounts(a.topic, if c.role.Leader? then LeaderObservation else FollowerObservation, e);
  }

  /** The arm with its joints read, and a request or a recovery taken up. */
  function Uptaken(a: Arm, inp: StepInput): Arm { PreparePhase(ReadPhase(a, inp).arm, inp) }

  /** What a turn that starts at `a` publishes: progress when the arm gets to act, if it has something to
      report and the last report is old enough; its observation when it gets to the commands, but none of
      a leader in recovery. */
  ghost function Publishes(c: Config, a: Arm, inp: StepInput, e: Event): nat {
    if e.RecoveryInProgress? || e.ReadyMoveInProgress? then
      if GetsToAct(c, a, inp) && PublishesBefore(Uptaken(a, inp), inp, e) then 1 else 0
    else if RunsToEnd(c, a, inp) && PublishesAfter(c, a, inp, e) then 1
    else 0
  }

  lemma UptakenQuiet(a: Arm, inp: StepInput, e: Event)
    requires Tracked(e)
    ensures Quiet(a, Uptaken(a, inp), e)
  {
    hide BeginCommand, BeginRecovery, ReadJoints, Count;
    var r := ReadPhase(a, inp).arm;
    assert Count(r, e) == Count(a, e) by { ReadOutside(a, inp); SameTopicCounts(a, r, e); }
    BeginCommandQuiet(r, inp, e);
    BeginRecoveryQuiet(BeginCommand(r, inp), inp, e);
  }

  lemma SameTopicCounts(a: Arm, b: Arm, e: Event)
    requires b.topic.events == a.topic.events
    ensures Count(b, e) == Count(a, e)
  {
  }

  lemma StepCounts(c: Config, a: Arm, inp: StepInput, e: Event)
    requires InOrder(a) && Tracked(e)
    ensures var b := Step(c, a, inp).arm;
      && Count(b, e) == Count(a, e) + Publishes(c, a, inp, e)
      && b.topic.recoveryPublished ==
           if Publishes(c, a, inp, RecoveryInProgress) == 1 then inp.progressMs else a.topic.recoveryPublished
  {
    hide Step, PreparePhase, ProgressPhase, ActPhase, ReadPhase, DispatchAll, TakeTargets, ClientWatchdog, PhaseOf,
         Count, PublishObservation, MarkCompleted, Reports, OldEnough;
    StepEnds(c, a, inp);
    ActingStops(a, inp);
    UptakenQuiet(a, inp, e);
    var p := Uptaken(a, inp);
    if GetsToAct(c, a, inp) {
      ProgressCounts(p, inp, e);
      var b := Acting(a, inp);
      ActQuiet(c, b, inp, e);
      ActInOrder(c, b, inp);
      var d := ActPhase(c, b, inp).arm;
      ObservationCounts(c, d, inp, e);
      if RunsToEnd(c, a, inp) {
        var o := PublishObservation(c, d, inp).arm;
        BatchQuiet(c, o, inp, |inp.messages|, e);
        StreamsKeepTopic(c, AfterCommands(c, a, inp), inp);
        SameTopicCounts(AfterCommands(c, a, inp), Step(c, a, inp).arm, e);
      }
    } else if ReadPhase(a, inp).Go? {
      var t := p.(recovery := p.recovery.(state := TimedOut));
      SameTopicCounts(p, t, e);
      MarkCompletedQuiet(t, e);
    } else {
      ReadOutside(a, inp);
      SameTopicCounts(a, ReadPhase(a, inp).arm, e);
    }
  }

  lemma AnnounceCounts(c: Config, n: Node, e: Event)
    requires Tracked(e)
    ensures Quiet(n.arm, Announce(c, n).arm, e)
  {
    EmitCounts(n.arm.topic, ReadyNow(AnnouncedId(n.arm)), e);
  }

  lemma SupervisedCounts(c: Config, a: Arm, inp: NodeInput, e: Event)
    requires Tracked(e)
    ensures Quiet(Step(c, a, inp.step).arm, Supervised(c, a, inp), e)
  {
    hide Step, EffectorStep;
    var s := Step(c, a, inp.step).arm;
    EmitCounts(s.topic, EffectorStepped, e);
    var r := ArmStep(c, a, inp.step).arm;
    EmitCounts(r.topic.(listening := false), ErrorDetected, e);
  }

  /** What a turn publishes, exactly. */
  lemma TurnPublishes(c: Config, n: Node, inp: NodeInput, e: Event)
    requires n.arm.topic.running && InOrder(n.arm) && Tracked(e)
    ensures var a, b := n.arm, Turn(c, n, inp).arm;
      && Count(b, e) == Count(a, e) + Publishes(c, a, inp.step, e)
      && b.topic.recoveryPublished ==
           if Publishes(c, a, inp.step, RecoveryInProgress) == 1 then inp.step.progressMs else a.topic.recoveryPublished
  {
    hide Step, Supervised, Announce, Count, Publishes, InOrder;
    StepCounts(c, n.arm, inp.step, e);
    SupervisedCounts(c, n.arm, inp, e);
    AnnounceCounts(c, n.(arm := Supervised(c, n.arm, inp)), e);
  }

  // ----- whole runs -----

  /** Turn `k` reports progress of the recovery. */
  ghost predicate ReportsAt(c: Config, n: Node, ins: nat -> NodeInput, k: nat) {
    Count(Run(c, n, ins, k + 1).arm, RecoveryInProgress) > Count(Run(c, n, ins, k).arm, RecoveryInProgress)
  }

  lemma ReportingTurn(c: Config, n: Node, ins: nat -> NodeInput, k: nat)
    requires Healthy(n)
    ensures var a, b := Run(c, n, ins, k).arm.topic, Run(c, n, ins, k + 1).arm.topic;
      && (ReportsAt(c, n, ins, k) ==>
            b.recoveryPublished == ins(k).step.progressMs && OldEnough(ins(k).step.progressMs, a.recoveryPublished))
      && (!ReportsAt(c, n, ins, k) ==> b.recoveryPublished == a.recoveryPublished)
  {
    hide Run, Turn, Count, InOrder, GetsToAct, PreparePhase, ReadPhase;
    var m := Run(c, n, ins, k);
    EventsInOrder(c, n, ins, k);
    RunTurn(c, n, ins, k + 1);
    TurnIs(c, m, ins(k));
    if m.arm.topic.running {
      TurnPublishes(c, m, ins(k), RecoveryInProgress);
      UptakenQuiet(m.arm, ins(k).step, RecoveryInProgress);
    }
  }

  lemma {:induction false} ReportsMoveOn(c: Config, n: Node, ins: nat -> NodeInput, j: nat, k: nat)
    requires Healthy(n) && j <= k
    ensures Run(c, n, ins, j).arm.topic.recoveryPublished <= Run(c, n, ins, k).arm.topic.recoveryPublished
    decreases k
  {
    hide Run, ReportsAt;
    if j < k {
      ReportsMoveOn(c, n, ins, j, k - 1);
      ReportingTurn(c, n, ins, k - 1);
    }
  }

  /** In every run the progress of a recovery is reported at most once in 200 milliseconds. */
  lemma ReportsAreSpaced(c: Config, n: Node, ins: nat -> NodeInput, j: nat, k: nat)
    requires Healthy(n) && j < k && ReportsAt(c, n, ins, j) && ReportsAt(c, n, ins, k)
    ensures ins(k).step.progressMs - ins(j).step.progressMs >= 200
  {
    hide Run, ReportsAt;
    ReportingTurn(c, n, ins, j);
    ReportsMoveOn(c, n, ins, j + 1, k);
    ReportingTurn(c, n, ins, k);
  }

  // ----- readiness -----

  /** The arm becomes ready in turn `k` and is ready after each of the `i` turns that follow, and the
      topic runs all the time. */
  ghost predicate ReadyFor(c: Config, n: Node, ins: nat -> NodeInput, k: nat, i: nat) {
    && !Run(c, n, ins, k).arm.ready && Run(c, n, ins, k).arm.topic.running
    && (forall m: nat :: k < m <= k + 1 + i ==> Run(c, n, ins, m).arm.ready)
    && (forall m: nat :: k < m <= k + i ==> Run(c, n, ins, m).arm.topic.running)
  }

  /** How many turns a readiness is announced for: about a second. */
  function Second(c: Config): int { if c.frequency >= 1 then c.frequency else 1 }

  /** It is announced at once, and then at regular turns, a tenth of a second apart, or in every turn of a
      slow loop. */
  predicate AnnouncedIn(c: Config, i: nat) {
    i < Second(c) && (i == 0 || c.frequency < 10 || (c.frequency - i) % (c.frequency / 10) == 0)
  }

  lemma AnnounceWindow(c: Config, n: Node, i: nat)
    requires n.arm.ready
    requires if i == 0 then !n.informed else n.informed && n.remaining == if i < Second(c) then Second(c) - i else 0
    ensures var m := Announce(c, n);
      && m.informed && m.remaining == (if i + 1 < Second(c) then Second(c) - i - 1 else 0)
      && m.arm.topic.events == n.arm.topic.events + (if AnnouncedIn(c, i) then [ReadyNow(AnnouncedId(n.arm))] else [])
      && m.arm.ready
  {
  }

  lemma AnnounceKeepsReady(c: Config, n: Node)
    ensures Announce(c, n).arm.ready == n.arm.ready
  {
  }

  /** In every run a readiness is announced in its own turn, at regular turns of the following second, and
      then no more, as long as it lasts; the announcement is the last event of its turn. */
  lemma {:induction false} ReadinessIsAnnounced(c: Config, n: Node, ins: nat -> NodeInput, k: nat, i: nat)
    requires n.informed == n.arm.ready && ReadyFor(c, n, ins, k, i)
    ensures var m, b := Run(c, n, ins, k + i), Run(c, n, ins, k + i + 1); var s := Supervised(c, m.arm, ins(k + i));
      && b.arm.topic.events == s.topic.events + (if AnnouncedIn(c, i) then [ReadyNow(AnnouncedId(s))] else [])
      && b.informed && b.remaining == (if i + 1 < Second(c) then Second(c) - i - 1 else 0)
  {
    hide Run, Supervised, Announce, AnnouncedIn;
    var m := Run(c, n, ins, k + i);
    if i == 0 {
      InformedIffReady(c, n, ins, k);
    } else {
      ReadinessIsAnnounced(c, n, ins, k, i - 1);
    }
    RunTurn(c, n, ins, k + i + 1);
    AnnounceKeepsReady(c, m.(arm := Supervised(c, m.arm, ins(k + i))));
    AnnounceWindow(c, m.(arm := Supervised(c, m.arm, ins(k + i))), i);
  }
}
