/** The life of a requested move of the effector, over any run of its steps: it is taken up, it is over
    exactly when its calls say so, its completion is recorded, and the effector returns to idle. */
module EffectorLife {
  import opened Control
  import opened ReadyMove
  import opened Device
  import opened RecoveryCompletion
  import CommandedMove

  /** The state after `k` steps. */
  function StepsOf(c: Config, e: Effector, ins: nat -> EffectorInput, k: nat): Effector {
    if k == 0 then e else EffectorStep(c, StepsOf(c, e, ins, k - 1), ins(k - 1)).effector
  }

  /** The effector has a move to make: one that is requested, or one that is not over, unless it has been
      told to stay where it is at start-up. */
  predicate Homing(c: Config, e: Effector) {
    e.command.state.Pending? || (!e.move.progress.done && !(c.skipHome && e.command.state.Idle?))
  }

  /** The calls of its move so far: a request starts them over. */
  function CallsSoFar(e: Effector, t: Tally): Tally { if e.command.state.Pending? then NoCalls else t }

  function Counting(c: Config, e: Effector, b: Effector, inp: EffectorInput, t: Tally): Tally {
    if inp.read.code.Success? && Homing(c, e)
    then OneMore(CallsSoFar(e, t), b.move.joints, inp.read.failed, c.effectorStep)
    else t
  }

  predicate Keeps(e: Effector, t: Tally) { e.command.state.Pending? || e.move.progress.done || Tallied(e.move, t) }

  lemma ReadKeeps(e: Effector, inp: EffectorInput, t: Tally)
    ensures var b := e.(move := Move(Read(e.move.joints, inp.poses), e.move.progress, inp.read.failed));
      Tallied(e.move, t) ==> Tallied(b.move, t)
  {
  }

  lemma BeginsTallied(e: Effector, t: Tally)
    requires e.command.state.Pending? || Tallied(e.move, t)
    ensures var d := BeginEffectorCommand(e); Tallied(d.move, CallsSoFar(e, t)) && d.move.joints == e.move.joints
  {
  }

  /** One step of an effector with a move to make. */
  lemma MakesCall(c: Config, e: Effector, inp: EffectorInput, t: Tally)
    requires inp.read.code.Success? && Homing(c, e) && Keeps(e, t)
    ensures var b := EffectorStep(c, e, inp).effector; var u := Counting(c, e, b, inp, t);
      && (b.move.progress.done <==> MoveOver(b.move.joints, inp.read.failed, u)) && Keeps(b, u)
      && b.command.state == (if e.command.state.Idle? then Idle else Moving)
      && var recorded := b.move.progress.done && !e.command.state.Idle?
                         && CommandedMove.LastAccepted(e.move.joints, inp.read.failed, inp.codes, |e.move.joints|);
        b.command.completedId == (if recorded then e.command.requestId else e.command.completedId)
        && b.command.requestId == (if recorded then 0 else e.command.requestId)
  {
    hide Tick, TickCode, Tallied, MoveOver, OneMore, CommandedMove.LastAccepted;
    ReadKeeps(e, inp, t);
    var r := e.(move := Move(Read(e.move.joints, inp.poses), e.move.progress, inp.read.failed));
    BeginsTallied(r, t);
    var d := BeginEffectorCommand(r);
    CallEndsMoveIff(d.move, CallsSoFar(e, t), c.effectorStep, inp.codes);
    CommandedMove.TickCodeIs(d.move, c.effectorStep, inp.codes);
    CommandedMove.SameServosAccepted(e.move.joints, d.move.joints, inp.read.failed, inp.codes);
  }

  /** A step without a call: a failed reading changes nothing but what has been read; an effector that has
      been told to stay is at rest where it is, and done; and one whose move is over goes idle. */
  lemma MakesNoCall(c: Config, e: Effector, inp: EffectorInput)
    requires !(inp.read.code.Success? && Homing(c, e))
    ensures var b := EffectorStep(c, e, inp).effector;
      && |b.move.joints| == |e.move.joints|
      && (forall i :: 0 <= i < |e.move.joints| ==>
            var j, k := e.move.joints[i], b.move.joints[i];
            && k.commands == j.commands && k.pos == Measured(j, inp.poses(i)).pos
            && (inp.read.code.Success? && !e.move.progress.done ==> k.tele == k.prev == k.target == k.pos)
            && (e.move.progress.done ==> k.tele == j.tele && k.prev == j.prev))
      && (if inp.read.code.Success? then b.move.progress.done && b.command.state.Idle?
          else b.move.progress == e.move.progress && b.command == e.command)
      && b.command.completedId == e.command.completedId
  {
  }

  lemma StepKeeps(c: Config, e: Effector, inp: EffectorInput, t: Tally)
    requires Keeps(e, t)
    ensures var b := EffectorStep(c, e, inp).effector; Keeps(b, Counting(c, e, b, inp, t))
  {
    hide EffectorStep, Tallied, OneMore;
    if inp.read.code.Success? && Homing(c, e) {
      MakesCall(c, e, inp, t);
    } else {
      MakesNoCall(c, e, inp);
      if !inp.read.code.Success? {
        UnreadKeeps(c, e, inp, t);
      }
    }
  }

  lemma UnreadKeeps(c: Config, e: Effector, inp: EffectorInput, t: Tally)
    requires !inp.read.code.Success? && Keeps(e, t)
    ensures Keeps(EffectorStep(c, e, inp).effector, t)
  {
  }

  // ----- a whole run -----

  function TallyAt(c: Config, e: Effector, ins: nat -> EffectorInput, k: nat): Tally {
    if k == 0 then NoCalls
    else Counting(c, StepsOf(c, e, ins, k - 1), StepsOf(c, e, ins, k), ins(k - 1), TallyAt(c, e, ins, k - 1))
  }

  lemma {:induction false} RunKeeps(c: Config, e: Effector, ins: nat -> EffectorInput, k: nat)
    requires e.command.state.Pending?
    ensures Keeps(StepsOf(c, e, ins, k), TallyAt(c, e, ins, k))
    ensures var b := StepsOf(c, e, ins, k); b.command.state.Idle? ==> b.move.progress.done
  {
    hide EffectorStep, Counting, Keeps;
    if k == 0 {
      PendingKeeps(e);
    } else {
      RunKeeps(c, e, ins, k - 1);
      var a := StepsOf(c, e, ins, k - 1);
      StepKeeps(c, a, ins(k - 1), TallyAt(c, e, ins, k - 1));
      if ins(k - 1).read.code.Success? && Homing(c, a) {
        MakesCall(c, a, ins(k - 1), TallyAt(c, e, ins, k - 1));
      } else {
        MakesNoCall(c, a, ins(k - 1));
      }
    }
  }

  lemma PendingKeeps(e: Effector)
    requires e.command.state.Pending?
    ensures Keeps(e, NoCalls)
  {
  }

  /** From a request on, the effector is ready after a step exactly if it was ready before and nothing is
      requested, or the call of the step ended its move; the same step records the completion of the
      request exactly if it ended the move and the last command of the call was accepted. */
  lemma EffectorReadyIff(c: Config, e: Effector, ins: nat -> EffectorInput, k: nat)
    requires e.command.state.Pending? && ins(k).read.code.Success?
    ensures var a, b := StepsOf(c, e, ins, k), StepsOf(c, e, ins, k + 1);
      && (b.move.progress.done <==>
            if Homing(c, a) then MoveOver(b.move.joints, ins(k).read.failed, TallyAt(c, e, ins, k + 1))
            else a.move.progress.done)
      && (b.command.completedId != a.command.completedId && b.command.state.Moving? ==>
            b.move.progress.done && b.command.completedId == a.command.requestId && b.command.requestId == 0)
      && (!Homing(c, a) ==> b.command.state.Idle? && b.command.completedId == a.command.completedId)
  {
    hide EffectorStep, Counting, MoveOver, Keeps;
    RunKeeps(c, e, ins, k);
    var a := StepsOf(c, e, ins, k);
    if Homing(c, a) {
      MakesCall(c, a, ins(k), TallyAt(c, e, ins, k));
    } else {
      MakesNoCall(c, a, ins(k));
    }
  }
}
