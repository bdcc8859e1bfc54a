/** When a recovery may complete: exactly when its watchdog fires, or when its slow move is over, and
    when that is, counted over the turns of the run. */
module RecoveryCompletion {
  import opened Control
  import opened Reals
  import opened ReadyMove
  import opened Device
  import opened ControlNode
  import opened RecoveryOrder
  import opened RecoveryEnds
  import opened FailedJoints
  import opened JointStep

  // ----- when a call ends a move -----

  predicate Usable(j: Joint, failed: set<int>) { j.servo < 0 || j.servo !in failed }

  /** At home within tolerance, or known to be stuck. */
  predicate Settled(j: Joint) {
    Abs(j.home - j.pos) <= j.margin + READY_MOVE_TOLERANCE_HYSTERESIS_RAD || j.latched
  }

  predicate AnyUsable(js: seq<Joint>, failed: set<int>) {
    exists i :: 0 <= i < |js| && Usable(js[i], failed)
  }

  predicate AllSettled(js: seq<Joint>, failed: set<int>) {
    forall i :: 0 <= i < |js| && Usable(js[i], failed) ==> Settled(js[i])
  }

  predicate Homebound(js: seq<Joint>) { forall i :: 0 <= i < |js| ==> js[i].target == js[i].home }

  lemma SweptSettled(js: seq<Joint>, step: real, failed: set<int>)
    requires Homebound(js)
    ensures Homebound(Swept(js, step, failed))
    ensures AllSettled(Swept(js, step, failed), failed) <==> !Blocked(js, failed)
    ensures AnyUsable(Swept(js, step, failed), failed) <==> Responsive(js, failed)
  {
    hide Approach, Base, Crossed;
    var ks := Swept(js, step, failed);
    forall i | 0 <= i < |js|
      ensures Usable(ks[i], failed) <==> !Skips(js[i], failed)
      ensures Usable(ks[i], failed) ==> (Settled(ks[i]) <==> !Blocks(js[i]))
    {
    }
    if i :| 0 <= i < |js| && !Skips(js[i], failed) {
      assert Usable(ks[i], failed);
    }
    if i :| 0 <= i < |js| && !Skips(js[i], failed) && Blocks(js[i]) {
      assert Usable(ks[i], failed) && !Settled(ks[i]);
    }
  }

  lemma ReadyHomebound(m: Move, step: real)
    requires m.progress.initCount < 1 || Homebound(m.joints)
    ensures Homebound(Ready(m, step).joints)
  {
    hide Budget, MaxDisplacement;
  }

  lemma {:induction false} SameDisplacement(js: seq<Joint>, ks: seq<Joint>, n: nat)
    requires n <= |js| == |ks| && forall i :: 0 <= i < |js| ==> ks[i].pos == js[i].pos && ks[i].home == js[i].home
    ensures MaxDisplacement(ks, n) == MaxDisplacement(js, n)
  {
    if n > 0 {
      SameDisplacement(js, ks, n - 1);
    }
  }

  /** The calls of a move so far, the last of them in a row that found every joint in use settled, and
      the calls it may take. */
  datatype Tally = Tally(calls: nat, confirmed: nat, budget: int)

  const NoCalls := Tally(0, 0, 0)

  /** After one more call; the first one sets the budget, from the way of the farthest joint. */
  function OneMore(t: Tally, js: seq<Joint>, failed: set<int>, step: real): Tally {
    Tally(t.calls + 1, if AllSettled(js, failed) then t.confirmed + 1 else 0,
          if t.calls == 0 then Budget(MaxDisplacement(js, |js|), step) else t.budget)
  }

  /** Nothing is left to move, everything has been found settled often enough, or the calls are used
      up. */
  predicate MoveOver(js: seq<Joint>, failed: set<int>, t: Tally) {
    || !AnyUsable(js, failed)
    || if AllSettled(js, failed) then t.confirmed > DEVICE_ARRIVED_CONFIRM_CNT else t.calls > t.budget
  }

  /** The counters of the code agree with the tally. */
  predicate Tallied(m: Move, t: Tally) {
    var p := m.progress;
    if p.initCount < 1 then t.calls == t.confirmed == 0
    else t.calls == p.used && t.calls >= 1 && t.confirmed == p.reached && t.budget == p.total > 0 && Homebound(m.joints)
  }

  /** A call ends its move exactly when the move is over. */
  lemma CallEndsMoveIff(m: Move, t: Tally, step: real, codes: nat -> ReturnCode)
    requires !m.progress.done && Tallied(m, t)
    ensures var q := Tick(m, step, codes); var u := OneMore(t, q.joints, m.failed, step);
      && (q.progress.done <==> MoveOver(q.joints, m.failed, u))
      && (!q.progress.done ==> Tallied(q, u))
  {
    hide Budget, MaxDisplacement, FailedMoves, Swept, Blocked, Responsive, AllSettled, AnyUsable;
    var r := Ready(m, step);
    ReadyHomebound(m, step);
    SweptSettled(r.joints, step, r.failed);
    SameDisplacement(m.joints, Tick(m, step, codes).joints, |m.joints|);
  }

  // ----- one turn of a recovery -----

  /** What the turns of a run say about a recovery: the calls of its move, and when a step of it last
      ran to its end, or it was taken up. */
  datatype Watch = Watch(tally: Tally, beat: int)

  /** The watch when the arm has taken up what waits. */
  function TakenUp(a: Arm, inp: StepInput, w: Watch): Watch {
    Watch(if Waits(a) then NoCalls else w.tally, if a.recovery.state.Requested? then inp.enterMs else w.beat)
  }

  /** The watchdog is armed, and the last sign of life is too old. */
  predicate TimesOut(c: Config, a: Arm, inp: StepInput, w: Watch) {
    c.timeoutMs > 0 && inp.checkMs - TakenUp(a, inp, w).beat >= c.timeoutMs
  }

  /** The watch after a turn that took the arm from `a` to `b`. */
  function Watched(c: Config, a: Arm, b: Arm, inp: StepInput, w: Watch): Watch {
    if !a.topic.running || !InRecovery(a) then w
    else
      var v := TakenUp(a, inp, w);
      if TimesOut(c, a, inp, w) || Starved(c, inp) then v
      else Watch(OneMore(v.tally, b.move.joints, inp.read.failed, c.errorStep),
                 if ArmStep(c, a, inp).code.Success? then inp.endMs else v.beat)
  }

  /** The turn from `a` to `b` completes a recovery: the watchdog fires, or the call of the turn ends
      the slow move. */
  predicate Completes(c: Config, a: Arm, b: Arm, inp: StepInput, w: Watch) {
    && a.topic.running && InRecovery(a)
    && ( || TimesOut(c, a, inp, w)
         || (!Starved(c, inp) && MoveOver(b.move.joints, inp.read.failed, Watched(c, a, b, inp, w).tally)))
  }

  predicate Agrees(a: Arm, w: Watch) {
    && (InRecovery(a) ==> a.recovery.slow)
    && (a.topic.running && a.recovery.state.MovingSlow? ==>
          a.recovery.heartbeat == w.beat && (a.command.state.Pending? || Tallied(a.move, w.tally)))
  }

  /** On the slow way home, in agreement with the watch. */
  predicate Underway(a: Arm, failed: set<int>, v: Watch) {
    && a.recovery.state.MovingSlow? && a.recovery.slow && !a.recovery.closed && a.recovery.heartbeat == v.beat
    && !a.ready && !a.command.state.Pending? && a.topic.running
    && !a.move.progress.done && a.move.failed == failed && Tallied(a.move, v.tally)
  }

  lemma ReadKeepsTally(a: Arm, inp: StepInput, t: Tally)
    ensures Tallied(a.move, t) ==> Tallied(ReadPhase(a, inp).arm.move, t)
  {
  }

  lemma PrepareUnderway(a: Arm, inp: StepInput, w: Watch)
    requires Homeward(a) && InRecovery(a) && a.topic.running && !a.recovery.closed && Agrees(a, w)
    ensures Underway(PreparePhase(a, inp), a.move.failed, TakenUp(a, inp, w))
  {
    hide AllCleared, AllRebased;
  }

  lemma ActingUnderway(c: Config, a: Arm, inp: StepInput, w: Watch)
    requires Homeward(a) && InOrder(a) && InRecovery(a) && a.topic.running && Agrees(a, w)
    ensures ReadPhase(a, inp).Go?
    ensures Underway(PreparePhase(ReadPhase(a, inp).arm, inp), inp.read.failed, TakenUp(a, inp, w))
    ensures Underway(Acting(a, inp), inp.read.failed, TakenUp(a, inp, w))
  {
    hide PreparePhase, ProgressPhase, Tallied, PhaseOf, ReadJoints;
    ReadKeepsTally(a, inp, w.tally);
    var r := ReadPhase(a, inp).arm;
    PrepareUnderway(r, inp, w);
    ProgressAlike(PreparePhase(r, inp), inp);
    ProgressKeepsSet(PreparePhase(r, inp), inp);
  }

  /** The joints as far as the outcome of a move is concerned. */
  predicate SameOutcome(js: seq<Joint>, ks: seq<Joint>) {
    |ks| == |js| && forall i :: 0 <= i < |js| ==>
      && ks[i].servo == js[i].servo && ks[i].home == js[i].home && ks[i].margin == js[i].margin
      && ks[i].pos == js[i].pos && ks[i].latched == js[i].latched
  }

  lemma OutcomeIsSame(js: seq<Joint>, ks: seq<Joint>, failed: set<int>, t: Tally, step: real)
    requires SameOutcome(js, ks)
    ensures OneMore(t, ks, failed, step) == OneMore(t, js, failed, step)
    ensures MoveOver(ks, failed, t) <==> MoveOver(js, failed, t)
  {
    hide MaxDisplacement, Budget;
    SameDisplacement(js, ks, |js|);
    assert AnyUsable(js, failed) <==> AnyUsable(ks, failed) by {
      if i :| 0 <= i < |js| && Usable(js[i], failed) { assert Usable(ks[i], failed); }
      if i :| 0 <= i < |ks| && Usable(ks[i], failed) { assert Usable(js[i], failed); }
    }
    assert AllSettled(js, failed) <==> AllSettled(ks, failed) by {
      assert forall i :: 0 <= i < |js| ==> (Settled(js[i]) <==> Settled(ks[i]));
    }
  }

  /** What acting does to such an arm: the call of the move, unless the feed-forward fails. */
  predicate CallMade(a: Arm, b: Arm, m: Move) {
    && SameOutcome(m.joints, b.move.joints) && b.recovery.slow == a.recovery.slow
    && if m.progress.done then
         && b.recovery.state.Completed? && !b.topic.running && b.move.progress.done
         && b.ready && (b.effector.Some? ==> b.effector.value.move.progress.done)
       else b.recovery == a.recovery && b.topic == a.topic && b.command == a.command
            && b.move == m && !b.ready
  }

  lemma ActMakesCall(c: Config, a: Arm, inp: StepInput, failed: set<int>, v: Watch)
    requires Underway(a, failed, v)
    ensures var r := ActPhase(c, a, inp);
      if Starved(c, inp) then r.Return? && r.arm == a && !r.code.Success?
      else CallMade(a, r.arm, Tick(a.move, c.errorStep, inp.codes)) && (r.Return? ==> !r.code.Success?)
  {
    hide Tick, TickCode, Tallied, AllRebased, AllCleared;
  }

  lemma DispatchInRecovery(c: Config, a: Arm, msg: Message, inp: StepInput)
    requires InRecovery(a)
    ensures var b := Dispatch(c, a, msg, inp);
      && b.move == a.move && b.recovery == a.recovery && (b.topic.running ==> a.topic.running)
      && (b.command == a.command || b.command.state.Pending?)
  {
  }

  lemma {:induction false} DispatchAllInRecovery(c: Config, a: Arm, inp: StepInput, n: nat)
    requires InRecovery(a) && n <= |inp.messages|
    ensures var b := DispatchAll(c, a, inp, n);
      && b.move == a.move && b.recovery == a.recovery && (b.topic.running ==> a.topic.running)
      && (b.command == a.command || b.command.state.Pending?)
  {
    hide Dispatch;
    if n > 0 {
      DispatchAllInRecovery(c, a, inp, n - 1);
      DispatchInRecovery(c, DispatchAll(c, a, inp, n - 1), inp.messages[n - 1], inp);
    }
  }

  /** The end of a step of a recovery moves nothing, and refreshes the heartbeat if it is reached. */
  lemma FinishInRecovery(c: Config, a: Arm, inp: StepInput)
    requires InRecovery(a)
    ensures var r := FinishPhase(c, a, inp); var b := r.arm;
      && b.move == a.move && (b.topic.running ==> a.topic.running)
      && b.recovery == a.recovery.(heartbeat := if r.code.Success? then inp.endMs else a.recovery.heartbeat)
      && (b.command == a.command || b.command.state.Pending?)
  {
    hide DispatchAll;
    DispatchAllInRecovery(c, PublishObservation(c, a, inp).arm, inp, |inp.messages|);
  }

  /** The arm after the step, and how it came about. */
  lemma StepInRecovery(c: Config, a: Arm, inp: StepInput, v: Watch)
    requires InRecovery(a) && ReadPhase(a, inp).Go?
    requires Underway(PreparePhase(ReadPhase(a, inp).arm, inp), inp.read.failed, v)
    requires Underway(Acting(a, inp), inp.read.failed, v)
    ensures var r := ActPhase(c, Acting(a, inp), inp);
      var late := c.timeoutMs > 0 && inp.checkMs - v.beat >= c.timeoutMs;
      && (late ==> var b := Step(c, a, inp).arm;
                     b.recovery.state.Completed? && b.recovery.slow && !b.topic.running)
      && (!late ==> Step(c, a, inp) == if r.Return? then r else FinishPhase(c, r.arm, inp))
  {
    hide ReadPhase, PreparePhase, ProgressPhase, ActPhase, FinishPhase, Tallied, StopTopic, Emit;
    StopTopicStops(Emit(PreparePhase(ReadPhase(a, inp).arm, inp).topic, ShutdownAfterError));
  }

  lemma StepFollows(c: Config, a: Arm, inp: StepInput, w: Watch)
    requires Homeward(a) && InOrder(a) && InRecovery(a) && a.topic.running && Agrees(a, w)
    ensures var b := Step(c, a, inp).arm; var x := Watched(c, a, b, inp, w);
      && Agrees(b, x)
      && (b.recovery.state.Completed? <==> Completes(c, a, b, inp, w))
      && (b.recovery.state.Completed? && !TimesOut(c, a, inp, w) ==> b.move.progress.done)
  {
    hide Step, Acting, ReadPhase, PreparePhase, ActPhase, FinishPhase, Tick, Homeward, InOrder, Tallied, MoveOver,
         OneMore, SameOutcome, Waits;
    var v := TakenUp(a, inp, w);
    ActingUnderway(c, a, inp, w);
    StepInRecovery(c, a, inp, v);
    StepStaysInRecovery(c, a, inp);
    if !TimesOut(c, a, inp, w) {
      var d := Acting(a, inp);
      var r := ActPhase(c, d, inp);
      ActMakesCall(c, d, inp, inp.read.failed, v);
      if !Starved(c, inp) {
        CallEndsMoveIff(d.move, v.tally, c.errorStep, inp.codes);
        FinishInRecovery(c, r.arm, inp);
        var js, ks := Tick(d.move, c.errorStep, inp.codes).joints, r.arm.move.joints;
        OutcomeIsSame(js, ks, inp.read.failed, v.tally, c.errorStep);
        OutcomeIsSame(js, ks, inp.read.failed, OneMore(v.tally, ks, inp.read.failed, c.errorStep), c.errorStep);
      }
    }
  }

  /** Between the end of the step and the end of the turn only an announcement is added. */
  lemma TurnInRecovery(c: Config, n: Node, inp: NodeInput)
    requires n.arm.topic.running && InRecovery(n.arm) && InOrder(n.arm)
    ensures var s, b := Step(c, n.arm, inp.step).arm, Turn(c, n, inp).arm;
      b == s.(topic := s.topic.(events := b.topic.events))
  {
    hide Step, ArmStep, Announce, InOrder;
    StepStaysInRecovery(c, n.arm, inp.step);
    StepInOrder(c, n.arm, inp.step);
    AnnounceAddsEvents(c, n.(arm := Supervised(c, n.arm, inp)));
  }

  lemma TurnOutsideRecovery(c: Config, n: Node, inp: NodeInput)
    requires n.arm.topic.running && !InRecovery(n.arm) && InOrder(n.arm)
    ensures var b := Turn(c, n, inp).arm; (InRecovery(b) ==> b.recovery.state.Requested? && b.recovery.slow)
  {
    hide ArmStep, Announce, PhaseOf;
    ArmStepInOrder(c, n.arm, inp.step);
    AnnounceAddsEvents(c, n.(arm := Supervised(c, n.arm, inp)));
  }

  lemma TurnFollows(c: Config, n: Node, inp: NodeInput, w: Watch)
    requires Homeward(n.arm) && InOrder(n.arm) && Agrees(n.arm, w)
    ensures var a, b := n.arm, Turn(c, n, inp).arm;
      && Agrees(b, Watched(c, a, b, inp.step, w))
      && (b.recovery.state.Completed? && !a.recovery.state.Completed? <==> Completes(c, a, b, inp.step, w))
      && (Completes(c, a, b, inp.step, w) && !TimesOut(c, a, inp.step, w) ==> b.move.progress.done)
  {
    hide Step, ArmStep, Homeward, PhaseOf, Turn, MoveOver, OneMore, Tallied, TimesOut, Starved, TakenUp;
    TurnIs(c, n, inp);
    if n.arm.topic.running {
      if InRecovery(n.arm) {
        StepFollows(c, n.arm, inp.step, w);
        TurnInRecovery(c, n, inp);
      } else {
        TurnOutsideRecovery(c, n, inp);
      }
    }
  }

  // ----- whole runs -----

  /** What the turns before turn `k` say. */
  function WatchAt(c: Config, n: Node, ins: nat -> NodeInput, k: nat): Watch {
    if k == 0 then Watch(NoCalls, 0)
    else Watched(c, Run(c, n, ins, k - 1).arm, Run(c, n, ins, k).arm, ins(k - 1).step, WatchAt(c, n, ins, k - 1))
  }

  lemma {:induction false} RunAgrees(c: Config, n: Node, ins: nat -> NodeInput, k: nat)
    requires Healthy(n)
    ensures Agrees(Run(c, n, ins, k).arm, WatchAt(c, n, ins, k))
  {
    hide Run, Turn, Homeward, InOrder, Watched, Agrees, Completes;
    if k == 0 {
      AgreesAtStart(c, n, ins);
    } else {
      RunAgrees(c, n, ins, k - 1);
      RunHomeward(c, n, ins, k - 1);
      EventsInOrder(c, n, ins, k - 1);
      RunTurn(c, n, ins, k);
      TurnFollows(c, Run(c, n, ins, k - 1), ins(k - 1), WatchAt(c, n, ins, k - 1));
    }
  }

  lemma AgreesAtStart(c: Config, n: Node, ins: nat -> NodeInput)
    requires Healthy(n)
    ensures Agrees(Run(c, n, ins, 0).arm, WatchAt(c, n, ins, 0))
  {
  }

  /** In every run a recovery is completed by turn `k` exactly when its watchdog fires then, or when
      the call of that turn ends the slow move: no servo is left to move, or for more than 30 calls in
      a row every joint in use was home or stuck, or the calls of the budget are used up and some joint
      is neither.  Unless the watchdog fired, the joints are done. */
  lemma RecoveryCompletesIff(c: Config, n: Node, ins: nat -> NodeInput, k: nat)
    requires Healthy(n)
    ensures var a, b, w := Run(c, n, ins, k).arm, Run(c, n, ins, k + 1).arm, WatchAt(c, n, ins, k);
      && (b.recovery.state.Completed? && !a.recovery.state.Completed? <==>
            && a.topic.running && InRecovery(a)
            && ( || TimesOut(c, a, ins(k).step, w)
                 || (!Starved(c, ins(k).step)
                     && MoveOver(b.move.joints, ins(k).step.read.failed, WatchAt(c, n, ins, k + 1).tally))))
      && (b.recovery.state.Completed? && !a.recovery.state.Completed? && !TimesOut(c, a, ins(k).step, w) ==>
            b.move.progress.done)
  {
    hide Run, Turn, Homeward, InOrder, Watched, Agrees, TimesOut, Starved, MoveOver;
    RunAgrees(c, n, ins, k);
    RunHomeward(c, n, ins, k);
    EventsInOrder(c, n, ins, k);
    RunTurn(c, n, ins, k + 1);
    TurnFollows(c, Run(c, n, ins, k), ins(k), WatchAt(c, n, ins, k));
  }
}
