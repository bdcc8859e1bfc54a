/** A commanded ready move of an arm and, if it has one, its effector: both devices run their own
    move, the arm becomes ready only after its effector, and both are bounded by their budgets,
    whatever the measurements are. */
module CommandedMove {
  import opened Control
  import opened ReadyMove
  import opened Device

  /** Reads, writes, commands and the feed-forward succeed and no command message arrives.  The
      poses, the servos that readings take out of use and the leader's targets are arbitrary. */
  ghost predicate Nominal(inp: StepInput) {
    && inp.read.code.Success? && inp.feedForward.Success? && inp.write.Success? && inp.observe.Success?
    && (forall i: nat :: inp.codes(i).Success?) && inp.messages == []
    && inp.effector.read.code.Success? && inp.effector.operate.Success? && inp.effector.write.Success?
    && (forall i: nat :: inp.effector.codes(i).Success?)
  }

  function ArmRun(c: Config, a: Arm, ins: nat -> StepInput, k: nat): Arm {
    if k == 0 then a else ArmStep(c, ArmRun(c, a, ins, k - 1), ins(k - 1)).arm
  }

  /** A move of one device, started and not over, or over. */
  predicate Begun(m: Move) { m.progress.done || (m.progress.initCount >= 1 && Running(m.progress)) }

  /** The arm and its effector on the move requested as `id`. */
  predicate OnCommandedMove(a: Arm, id: int) {
    && !InRecovery(a) && !a.ready && a.command.state.Moving? && a.command.requestId == id && Begun(a.move)
    && (a.effector.Some? ==> EffectorOnMove(a.effector.value))
  }

  predicate EffectorOnMove(e: Effector) {
    Begun(e.move) && !e.command.state.Pending? && (!e.move.progress.done ==> e.command.state.Moving?)
  }

  /** The move is over, or needs fewer calls than `bound`. */
  predicate Counts(m: Move, bound: int) { m.progress.done || 0 < CallsLeft(m.progress) < bound }

  /** Nothing is left to do for the effector. */
  predicate EffectorDone(a: Arm) { a.effector.Some? ==> a.effector.value.move.progress.done }

  predicate EffectorCounts(a: Arm, bound: int) { a.effector.Some? ==> Counts(a.effector.value.move, bound) }

  // ----- one device -----

  lemma {:induction false} AllCommandsAccepted(js: seq<Joint>, failed: set<int>, codes: nat -> ReturnCode, n: nat)
    requires n <= |js| && forall i: nat :: codes(i).Success?
    ensures LastCode(js, failed, codes, n).Success?
  {
    if n > 0 {
      AllCommandsAccepted(js, failed, codes, n - 1);
    }
  }

  /** One call of a begun move brings it nearer to its end. */
  lemma TickOfBegun(m: Move, step: real, codes: nat -> ReturnCode)
    requires Begun(m) && !m.progress.done && forall i: nat :: codes(i).Success?
    ensures TickCode(m, step, codes).Success?
    ensures Begun(Tick(m, step, codes)) && Tick(m, step, codes).progress.initCount >= 1
    ensures Counts(Tick(m, step, codes), CallsLeft(m.progress))
  {
    hide Swept, FailedMoves, Responsive, Blocked;
    var r := Ready(m, step);
    AllCommandsAccepted(r.joints, r.failed, codes, |r.joints|);
    CountedDecreases(r.progress, Responsive(r.joints, r.failed), Blocked(r.joints, r.failed));
  }

  /** The first call of a move. */
  lemma TickOfFirst(m: Move, step: real, codes: nat -> ReturnCode)
    requires m.progress.initCount == 0 && !m.progress.done && forall i: nat :: codes(i).Success?
    ensures TickCode(m, step, codes).Success?
    ensures Begun(Tick(m, step, codes)) && Tick(m, step, codes).progress.initCount >= 1
    ensures Counts(Tick(m, step, codes), CallsNeeded(m, step))
  {
    hide Swept, FailedMoves, Responsive, Blocked, Budget;
    var r := Ready(m, step);
    AllCommandsAccepted(r.joints, r.failed, codes, |r.joints|);
    CountedDecreases(r.progress, Responsive(r.joints, r.failed), Blocked(r.joints, r.failed));
  }

  lemma AllAttempted(codes: nat -> ReturnCode, n: nat)
    requires forall i: nat :: codes(i).Success?
    ensures LoopCode(codes, n).Success?
  {
  }

  // ----- the effector -----

  /** A step of an effector that has begun its move, or finished it. */
  lemma EffectorNearer(c: Config, e: Effector, inp: EffectorInput)
    requires inp.read.code.Success? && inp.operate.Success? && inp.write.Success?
    requires forall i: nat :: inp.codes(i).Success?
    requires Begun(e.move) && (!e.move.progress.done ==> e.command.state.Moving?) && !e.command.state.Pending?
    ensures var o := EffectorStep(c, e, inp);
      && o.code.Success? && Begun(o.effector.move) && !o.effector.command.state.Pending?
      && (!o.effector.move.progress.done ==> o.effector.command.state.Moving?)
      && (if e.move.progress.done then o.effector.move.progress.done
          else Counts(o.effector.move, CallsLeft(e.move.progress)))
  {
    hide Tick, TickCode, CallsLeft, Running;
    var b := Move(Read(e.move.joints, inp.poses), e.move.progress, inp.read.failed);
    if !e.move.progress.done {
      BegunIsProgress(e.move, b);
      TickOfBegun(b, c.effectorStep, inp.codes);
    }
  }

  lemma BegunIsProgress(m: Move, b: Move)
    requires Begun(m) && b.progress == m.progress
    ensures Begun(b)
  {
  }

  /** What the effector's first call sees. */
  function EffectorStart(e: Effector, inp: EffectorInput): Move {
    Restarted(Move(Read(e.move.joints, inp.poses), e.move.progress, inp.read.failed))
  }

  lemma EffectorBegins(c: Config, e: Effector, inp: EffectorInput)
    requires inp.read.code.Success? && inp.operate.Success? && inp.write.Success?
    requires forall i: nat :: inp.codes(i).Success?
    requires e.command.state.Pending?
    ensures var o := EffectorStep(c, e, inp);
      && o.code.Success? && Begun(o.effector.move) && !o.effector.command.state.Pending?
      && (!o.effector.move.progress.done ==> o.effector.command.state.Moving?)
      && Counts(o.effector.move, CallsNeeded(EffectorStart(e, inp), c.effectorStep))
  {
    hide Tick, TickCode, CallsLeft, Running, CallsNeeded;
    TickOfFirst(EffectorStart(e, inp), c.effectorStep, inp.codes);
  }

  // ----- the arm -----

  /** What does not concern the move of the joints. */
  predicate Frame(a: Arm, b: Arm) {
    && b.recovery == a.recovery && b.ready == a.ready && b.command == a.command && b.effector == a.effector
  }

  lemma ProgressFrame(a: Arm, inp: StepInput)
    ensures Frame(a, ProgressPhase(a, inp)) && ProgressPhase(a, inp).move == a.move
  {
  }

  lemma ActingOnMove(a: Arm, inp: StepInput, id: int)
    requires OnCommandedMove(a, id)
    ensures Frame(a, Acting(a, inp)) && Acting(a, inp).move.progress == a.move.progress
  {
    hide ProgressPhase, Begun;
    ProgressFrame(PreparePhase(ReadPhase(a, inp).arm, inp), inp);
  }

  /** A move just requested: the arm and the effector have lost their readiness.  An effector whose
      own step has followed the request in the same turn is on its move already. */
  predicate JustRequested(a: Arm, id: int) {
    && !InRecovery(a) && !a.ready && a.command.state.Pending? && a.command.requestId == id
    && (a.effector.Some? ==> EffectorAsked(a.effector.value) || EffectorOnMove(a.effector.value))
  }

  predicate EffectorAsked(e: Effector) { e.command.state.Pending? && !e.move.progress.done }

  lemma RequestIsJustRequested(a: Arm, id: int)
    requires !InRecovery(a)
    ensures JustRequested(RequestMove(a, id), id)
  {
  }

  lemma ActingOnRequest(a: Arm, inp: StepInput, id: int)
    requires JustRequested(a, id)
    ensures var b := Acting(a, inp);
      && b.recovery == a.recovery && !b.ready && b.effector == a.effector
      && b.command == a.command.(state := Moving)
      && !b.move.progress.done && b.move.progress.initCount == 0
  {
    hide ProgressPhase;
    ProgressFrame(PreparePhase(ReadPhase(a, inp).arm, inp), inp);
  }

  /** The step up to the effector: everything succeeds, so it consists of the move and what
      follows it. */
  lemma FinishFrame(c: Config, a: Arm, inp: StepInput)
    requires Nominal(inp) && !InRecovery(a)
    requires a.command.state.Moving?
    ensures var r := FinishPhase(c, a, inp);
      && r.code.Success? && r.arm.ready == a.ready && r.arm.command == a.command && r.arm.effector == a.effector
      && r.arm.move.progress == a.move.progress && !InRecovery(r.arm)
  {
  }

  lemma StepIsMove(c: Config, a: Arm, inp: StepInput)
    requires Nominal(inp) && !InRecovery(a)
    requires var b := Acting(a, inp); b.recovery == a.recovery && !b.ready && b.command.state.Moving?
    ensures var r := ActPhase(c, Acting(a, inp), inp);
      Step(c, a, inp) == if r.Return? then r else FinishPhase(c, r.arm, inp)
  {
    hide PreparePhase, ProgressPhase, ActPhase, FinishPhase;
    ProgressFrame(PreparePhase(ReadPhase(a, inp).arm, inp), inp);
  }

  /** The arm's part of a nominal step outside recovery, on a commanded move. */
  lemma ActOnMove(c: Config, a: Arm, inp: StepInput)
    requires Nominal(inp) && !InRecovery(a) && !a.ready && a.command.state.Moving?
    requires Begun(a.move) || a.move.progress.initCount == 0
    ensures var r := ActPhase(c, a, inp); var p := r.arm.move.progress;
      && r.Go? && r.arm.recovery == a.recovery && r.arm.effector == a.effector && Begun(r.arm.move)
      && (a.move.progress.done ==> p.done)
      && (!a.move.progress.done ==>
            Counts(r.arm.move, if a.move.progress.initCount == 0 then CallsNeeded(a.move, StepLength(c, a))
                               else CallsLeft(a.move.progress)))
      && r.arm.ready == (p.done && EffectorDone(a))
      && r.arm.command == if r.arm.ready then a.command.(completedId := a.command.requestId, requestId := 0)
                          else a.command
  {
    hide Tick, TickCode, CallsLeft, Running, CallsNeeded, Attempts, LoopCode, StepLength;
    var step := StepLength(c, a);
    if a.move.progress.done {
      AllAttempted(inp.codes, |a.move.joints|);
    } else if a.move.progress.initCount == 0 {
      TickOfFirst(a.move, step, inp.codes);
    } else {
      TickOfBegun(a.move, step, inp.codes);
    }
  }

  // ----- one step of both -----

  /** After a step of a commanded move: the arm is ready, with its effector done before, or both
      are nearer to their end, within the bounds given. */
  predicate Progressed(a: Arm, b: Arm, id: int, armBound: int, effectorBound: int) {
    && (b.ready ==> EffectorDone(a) && b.move.progress.done && b.command.completedId == id)
    && (!b.ready ==>
          && OnCommandedMove(b, id) && b.effector.Some? == a.effector.Some?
          && (if a.move.progress.done then b.move.progress.done else Counts(b.move, armBound))
          && (if EffectorDone(a) then EffectorDone(b) else EffectorCounts(b, effectorBound))
          && !(b.move.progress.done && EffectorDone(a)))
  }

  /** The step in which a request is taken up. */
  lemma FirstStep(c: Config, a: Arm, inp: StepInput, id: int)
    requires Nominal(inp) && JustRequested(a, id)
    ensures ArmStep(c, a, inp).code.Success?
    ensures var b := ArmStep(c, a, inp).arm;
      && (b.ready ==> EffectorDone(a) && b.move.progress.done && b.command.completedId == id)
      && (!b.ready ==>
            && OnCommandedMove(b, id) && b.effector.Some? == a.effector.Some?
            && Counts(b.move, ArmCalls(c, a, inp)) && EffectorCounts(b, EffectorCalls(c, a, inp))
            && !(b.move.progress.done && EffectorDone(a)))
  {
    hide Acting, ActPhase, FinishPhase, EffectorStep, Step, CallsLeft, CallsNeeded, Begun, EffectorStart;
    ActingOnRequest(a, inp, id);
    var b := Acting(a, inp);
    StepIsMove(c, a, inp);
    ActOnMove(c, b, inp);
    var d := ActPhase(c, b, inp).arm;
    FinishFrame(c, d, inp);
    BegunIsProgress(d.move, FinishPhase(c, d, inp).arm.move);
    if a.effector.Some? {
      if a.effector.value.command.state.Pending? {
        EffectorBegins(c, a.effector.value, inp.effector);
      } else {
        EffectorNearer(c, a.effector.value, inp.effector);
      }
    }
  }

  /** Every later step. */
  lemma NextStep(c: Config, a: Arm, inp: StepInput, id: int)
    requires Nominal(inp) && OnCommandedMove(a, id)
    ensures ArmStep(c, a, inp).code.Success?
    ensures Progressed(a, ArmStep(c, a, inp).arm, id, CallsLeft(a.move.progress),
                       if a.effector.Some? then CallsLeft(a.effector.value.move.progress) else 0)
  {
    hide Acting, ActPhase, FinishPhase, EffectorStep, Step, CallsLeft, CallsNeeded, Running;
    ActingOnMove(a, inp, id);
    var b := Acting(a, inp);
    StepIsMove(c, a, inp);
    ActOnMove(c, b, inp);
    FinishFrame(c, ActPhase(c, b, inp).arm, inp);
    if a.effector.Some? {
      EffectorNearer(c, a.effector.value, inp.effector);
    }
  }

  // ----- the whole move -----

  ghost predicate AllNominal(ins: nat -> StepInput) { forall k: nat :: Nominal(ins(k)) }

  function ArmCalls(c: Config, a: Arm, inp: StepInput): nat {
    CallsNeeded(Acting(a, inp).move, StepLength(c, a))
  }

  /** Zero when there is nothing left to do for the effector. */
  function EffectorCalls(c: Config, a: Arm, inp: StepInput): int {
    if EffectorDone(a) then 0
    else if a.effector.value.command.state.Pending? then
      CallsNeeded(EffectorStart(a.effector.value, inp.effector), c.effectorStep)
    else CallsLeft(a.effector.value.move.progress)
  }

  predicate NotReadyUpTo(c: Config, a: Arm, ins: nat -> StepInput, k: nat) {
    forall j: nat :: 0 < j < k ==> !ArmRun(c, a, ins, j).ready
  }

  lemma ArmRunStep(c: Config, a: Arm, ins: nat -> StepInput, k: nat)
    ensures ArmRun(c, a, ins, 0) == a
    ensures ArmRun(c, a, ins, k + 1) == ArmStep(c, ArmRun(c, a, ins, k), ins(k)).arm
  {
  }

  /** While the arm is not ready, both devices count down from their own bound. */
  lemma {:induction false} BothCountDown(c: Config, a: Arm, ins: nat -> StepInput, id: int, k: nat)
    requires JustRequested(a, id) && AllNominal(ins) && k >= 1 && NotReadyUpTo(c, a, ins, k + 1)
    ensures var b := ArmRun(c, a, ins, k);
      && OnCommandedMove(b, id) && b.effector.Some? == a.effector.Some?
      && Counts(b.move, ArmCalls(c, a, ins(0)) - k + 1)
      && EffectorCounts(b, EffectorCalls(c, a, ins(0)) - k + 1)
      && !(b.move.progress.done && EffectorDone(ArmRun(c, a, ins, k - 1)))
  {
    hide ArmRun, ArmStep, Nominal, Running, CallsLeft, ArmCalls, EffectorCalls, Begun;
    ArmRunStep(c, a, ins, k - 1);
    if k == 1 {
      ArmRunStep(c, a, ins, 0);
      FirstStep(c, a, ins(0), id);
    } else {
      BothCountDown(c, a, ins, id, k - 1);
      NextStep(c, ArmRun(c, a, ins, k - 1), ins(k - 1), id);
    }
  }

  lemma {:induction false} FirstReady(c: Config, a: Arm, ins: nat -> StepInput, n: nat) returns (k: nat)
    requires !NotReadyUpTo(c, a, ins, n)
    ensures 0 < k < n && ArmRun(c, a, ins, k).ready && NotReadyUpTo(c, a, ins, k)
  {
    hide ArmRun;
    if NotReadyUpTo(c, a, ins, n - 1) {
      k := n - 1;
    } else {
      k := FirstReady(c, a, ins, n - 1);
    }
  }

  /** A commanded move finishes: within the bound of the arm, or one step after that of its
      effector, the arm is ready for exactly this request, and its effector was done before. */
  lemma CommandedMoveFinishes(c: Config, a: Arm, ins: nat -> StepInput, id: int) returns (k: nat)
    requires JustRequested(a, id) && AllNominal(ins)
    ensures 1 <= k && (k <= ArmCalls(c, a, ins(0)) || (!EffectorDone(a) && k <= EffectorCalls(c, a, ins(0)) + 1))
    ensures NotReadyUpTo(c, a, ins, k)
    ensures var b := ArmRun(c, a, ins, k); b.ready && b.move.progress.done && b.command.completedId == id
    ensures EffectorDone(ArmRun(c, a, ins, k - 1)) && (!EffectorDone(a) ==> k >= 2)
  {
    hide ArmRun, ArmStep, Nominal, Running, CallsLeft, ArmCalls, EffectorCalls, Begun, NotReadyUpTo;
    var na, ne := ArmCalls(c, a, ins(0)), EffectorCalls(c, a, ins(0));
    AtLeastTwo(c, a, ins(0));
    var last := if na >= ne + 1 then na else ne + 1;
    if NotReadyUpTo(c, a, ins, last + 1) {
      ShorterToo(c, a, ins, last + 1, last);
      BothCountDown(c, a, ins, id, last);
      BothCountDown(c, a, ins, id, last - 1);
    }
    k := FirstReady(c, a, ins, last + 1);
    ArmRunStep(c, a, ins, k - 1);
    if k == 1 {
      ArmRunStep(c, a, ins, 0);
      FirstStep(c, a, ins(0), id);
    } else {
      BothCountDown(c, a, ins, id, k - 1);
      NextStep(c, ArmRun(c, a, ins, k - 1), ins(k - 1), id);
    }
  }

  lemma AtLeastTwo(c: Config, a: Arm, inp: StepInput)
    ensures ArmCalls(c, a, inp) >= 2
    ensures EffectorDone(a) ==> EffectorCalls(c, a, inp) == 0
  {
  }

  lemma ShorterToo(c: Config, a: Arm, ins: nat -> StepInput, n: nat, m: nat)
    requires NotReadyUpTo(c, a, ins, n) && m <= n
    ensures NotReadyUpTo(c, a, ins, m)
  {
  }

  // ----- in general -----

  lemma DispatchNeverReadies(c: Config, a: Arm, msg: Message, inp: StepInput)
    ensures Dispatch(c, a, msg, inp).ready ==> a.ready && Dispatch(c, a, msg, inp).command == a.command
  {
    hide AllRebased, AllCleared, StopTopic;
  }

  lemma {:induction false} DispatchAllNeverReadies(c: Config, a: Arm, inp: StepInput, n: nat)
    requires n <= |inp.messages|
    ensures DispatchAll(c, a, inp, n).ready ==> a.ready && DispatchAll(c, a, inp, n).command == a.command
  {
    hide Dispatch;
    if n > 0 {
      DispatchAllNeverReadies(c, a, inp, n - 1);
      DispatchNeverReadies(c, DispatchAll(c, a, inp, n - 1), inp.messages[n - 1], inp);
    }
  }

  lemma FinishNeverReadies(c: Config, a: Arm, inp: StepInput)
    ensures FinishPhase(c, a, inp).arm.ready ==> a.ready && FinishPhase(c, a, inp).arm.command == a.command
  {
    hide DispatchAll, AllRebased, AllCleared, AllAimed;
    DispatchAllNeverReadies(c, PublishObservation(c, a, inp).arm, inp, |inp.messages|);
  }

  lemma ActReadies(c: Config, a: Arm, inp: StepInput)
    requires !InRecovery(a) && !a.ready && !a.command.state.Idle?
    ensures ActPhase(c, a, inp).arm.ready ==> EffectorDone(a)
  {
    hide Tick, TickCode, CommandedUpTo, Attempts, LoopCode, AllRebased, AllCleared;
  }

  lemma ActingFrame(a: Arm, inp: StepInput)
    requires !InRecovery(a) && !a.ready && !a.command.state.Idle?
    ensures var b := Acting(a, inp);
      && b.recovery == a.recovery && !b.ready && !b.command.state.Idle? && b.effector == a.effector
  {
    hide ProgressPhase;
    ProgressFrame(PreparePhase(ReadPhase(a, inp).arm, inp), inp);
  }

  /** Whatever happens, outside recovery a commanded move makes the arm ready only if its
      effector is ready at that moment; the request itself had ended the effector's readiness. */
  lemma ReadyOnlyWithEffector(c: Config, a: Arm, inp: StepInput)
    requires !InRecovery(a) && !a.ready && !a.command.state.Idle?
    requires Step(c, a, inp).arm.ready
    ensures EffectorDone(a)
  {
    hide PreparePhase, ProgressPhase, ActPhase, FinishPhase;
    var p := PreparePhase(ReadPhase(a, inp).arm, inp);
    ActingFrame(a, inp);
    ProgressFrame(p, inp);
    ActReadies(c, Acting(a, inp), inp);
    FinishNeverReadies(c, ActPhase(c, Acting(a, inp), inp).arm, inp);
  }

  // ----- when a completion is recorded -----

  /** Joint `i` is the last of the first `n` that is commanded at all. */
  ghost predicate LastMoved(js: seq<Joint>, failed: set<int>, n: nat, i: nat)
    requires n <= |js|
  {
    i < n && !Skips(js[i], failed) && forall k :: i < k < n ==> Skips(js[k], failed)
  }

  ghost predicate LastAccepted(js: seq<Joint>, failed: set<int>, codes: nat -> ReturnCode, n: nat)
    requires n <= |js|
  {
    forall i: nat :: LastMoved(js, failed, n, i) ==> codes(i).Success?
  }

  lemma {:induction false} LastCodeIs(js: seq<Joint>, failed: set<int>, codes: nat -> ReturnCode, n: nat)
    requires n <= |js|
    ensures LastCode(js, failed, codes, n).Success? <==> LastAccepted(js, failed, codes, n)
  {
    if n > 0 {
      LastCodeIs(js, failed, codes, n - 1);
      if Skips(js[n - 1], failed) {
        forall i: nat ensures LastMoved(js, failed, n, i) <==> LastMoved(js, failed, n - 1, i) {
        }
      } else {
        assert LastMoved(js, failed, n, n - 1);
      }
    }
  }

  lemma TickCodeIs(m: Move, step: real, codes: nat -> ReturnCode)
    ensures TickCode(m, step, codes).Success? <==> LastAccepted(m.joints, m.failed, codes, |m.joints|)
  {
    hide Budget;
    var r := Ready(m, step);
    LastCodeIs(r.joints, r.failed, codes, |r.joints|);
    forall i: nat
      ensures LastMoved(r.joints, r.failed, |r.joints|, i) <==> LastMoved(m.joints, m.failed, |m.joints|, i)
    {
      if i < |m.joints| {
        assert Skips(r.joints[i], r.failed) == Skips(m.joints[i], m.failed);
        assert forall k :: i < k < |m.joints| ==> Skips(r.joints[k], r.failed) == Skips(m.joints[k], m.failed);
      }
    }
  }

  lemma SameServosAccepted(js: seq<Joint>, ks: seq<Joint>, failed: set<int>, codes: nat -> ReturnCode)
    requires |ks| == |js| && forall i :: 0 <= i < |js| ==> ks[i].servo == js[i].servo
    ensures LastAccepted(ks, failed, codes, |ks|) <==> LastAccepted(js, failed, codes, |js|)
  {
    assert forall i: nat :: LastMoved(ks, failed, |ks|, i) <==> LastMoved(js, failed, |js|, i);
  }

  lemma ActRecordsIff(c: Config, a: Arm, inp: StepInput)
    requires !a.ready && a.command.state.Moving? && a.command.completedId != a.command.requestId
    requires ActPhase(c, a, inp).arm.ready
    ensures ActPhase(c, a, inp).arm.command.completedId == a.command.requestId <==>
      a.move.progress.done || LastAccepted(a.move.joints, a.move.failed, inp.codes, |a.move.joints|)
  {
    hide Tick, TickCode, CommandedUpTo, Attempts, LoopCode, LastAccepted, StopTopic;
    TickCodeIs(a.move, StepLength(c, a), inp.codes);
  }

  /** In the step in which a commanded move makes the arm ready, the request is recorded as
      completed exactly when the arm had arrived before and only waited, or the last of the joints
      it moves accepts its command. */
  lemma CompletionRecordedIff(c: Config, a: Arm, inp: StepInput)
    requires !a.ready && !a.command.state.Idle? && a.command.completedId != a.command.requestId
    requires Step(c, a, inp).arm.ready
    ensures var b := Acting(a, inp);
      Step(c, a, inp).arm.command.completedId == a.command.requestId <==>
        b.move.progress.done || LastAccepted(b.move.joints, b.move.failed, inp.codes, |b.move.joints|)
  {
    hide PreparePhase, ProgressPhase, ActPhase, FinishPhase, LastAccepted, MarkCompleted;
    var p := PreparePhase(ReadPhase(a, inp).arm, inp);
    PrepareMoving(ReadPhase(a, inp).arm, inp);
    ProgressFrame(p, inp);
    MarkKeepsReadiness(p.(recovery := p.recovery.(state := TimedOut)));
    FinishNeverReadies(c, ActPhase(c, Acting(a, inp), inp).arm, inp);
    ActRecordsIff(c, Acting(a, inp), inp);
  }

  lemma PrepareMoving(a: Arm, inp: StepInput)
    requires !a.ready && !a.command.state.Idle?
    ensures var b := PreparePhase(a, inp);
      && !b.ready && b.command == a.command.(state := Moving)
  {
  }

  lemma MarkKeepsReadiness(a: Arm)
    ensures MarkCompleted(a).ready == a.ready
  {
  }
}
