/** Whether a follower arm jumps.  The slew of a joint starts from a place that belongs to the history
    of the joint, its last command and the poses measured since, until it is started over from a
    pose that is older.  Over whole runs, through tracking, hold, ready move, waiting for the
    effector, restoring and recovery, every command is close to that history exactly as long as
    this does not happen; and it never happens to a joint that is read. */
module NoJump {
  import opened Wrappers
  import opened Reals
  import opened ReadyMove
  import opened Device
  import opened ControlNode
  import opened JointStep
  import opened FailedJoints
  import ReadTriage

  /** The history of a joint: its last command with the poses measured since the step that sent it
      began, or, strictly, with those measured after it. */
  function History(j: Joint, strict: bool): set<real> { if strict then j.since else j.anchors }

  predicate Follows(j: Joint, strict: bool) { j.prev in History(j, strict) }

  ghost predicate Near(places: set<real>, c: real, reach: real) { exists x :: x in places && Abs(c - x) <= reach }

  // ----- one turn -----

  predicate CommandsJoint(c: Config, n: Node, inp: NodeInput, i: nat)
    requires i < |n.arm.move.joints|
  {
    && i < |Turn(c, n, inp).arm.move.joints|
    && Turn(c, n, inp).arm.move.joints[i].commands != n.arm.move.joints[i].commands
  }

  /** Where the command of this turn to joint `i` starts from. */
  function Origin(n: Node, inp: NodeInput, i: nat): real
    requires i < |n.arm.move.joints| && |Acting(n.arm, inp.step).move.joints| == |n.arm.move.joints|
  {
    if CommandsFromPose(n.arm, inp.step, i) then Measured(n.arm.move.joints[i], inp.step.poses(i)).pos
    else n.arm.move.joints[i].prev
  }

  lemma SameCount(a: Arm, inp: StepInput)
    ensures |Acting(a, inp).move.joints| == |a.move.joints|
  {
    hide PreparePhase, ProgressPhase;
    PrepareStill(ReadPhase(a, inp).arm, inp, 0);
    ProgressStill(PreparePhase(ReadPhase(a, inp).arm, inp), inp);
  }

  /** The turn starts the slew of joint `i` from a pose outside its history: before its command,
      after it, or without one. */
  predicate LeavesHistory(c: Config, n: Node, inp: NodeInput, i: nat, strict: bool)
    requires i < |n.arm.move.joints| && |Acting(n.arm, inp.step).move.joints| == |n.arm.move.joints|
    requires i < |Turn(c, n, inp).arm.move.joints|
  {
    && n.arm.topic.running
    && var m, k := Measured(n.arm.move.joints[i], inp.step.poses(i)), Turn(c, n, inp).arm.move.joints[i];
      if CommandsJoint(c, n, inp, i) then
        || (CommandsFromPose(n.arm, inp.step, i) && m.pos !in History(m, strict))
        || (RestartsAfterCommand(c, n.arm, inp.step) && m.pos !in History(k, strict))
      else Restarts(c, n.arm, inp.step) && m.pos !in History(m, strict)
  }

  /** The turn keeps to the history of joint `i`: its command starts there, and the slew is there
      afterwards. */
  predicate KeepsToHistory(c: Config, n: Node, inp: NodeInput, i: nat, strict: bool)
    requires i < |n.arm.move.joints| && |Acting(n.arm, inp.step).move.joints| == |n.arm.move.joints|
    requires i < |Turn(c, n, inp).arm.move.joints|
  {
    && (CommandsJoint(c, n, inp, i) ==>
          Origin(n, inp, i) in History(Measured(n.arm.move.joints[i], inp.step.poses(i)), strict))
    && Follows(Turn(c, n, inp).arm.move.joints[i], strict)
  }

  /** What one turn does to a joint: at most one command, within reach of where it starts.  From its
      history on, the joint keeps to it exactly if the slew is not started from an older pose. */
  lemma TurnKeepsToHistoryIff(c: Config, n: Node, inp: NodeInput, i: nat, strict: bool)
    requires Valid(c, n.arm) && i < |n.arm.move.joints|
    ensures |Turn(c, n, inp).arm.move.joints| == |Acting(n.arm, inp.step).move.joints| == |n.arm.move.joints|
    ensures var j, k := n.arm.move.joints[i], Turn(c, n, inp).arm.move.joints[i];
      && k.velMax == j.velMax && (k.commands == j.commands || k.commands == j.commands + 1)
      && (CommandsJoint(c, n, inp, i) ==> Abs(k.sent - Origin(n, inp, i)) <= Reach(c, n.arm, inp.step, i))
    ensures Follows(n.arm.move.joints[i], strict) ==>
      (KeepsToHistory(c, n, inp, i, strict) <==> !LeavesHistory(c, n, inp, i, strict))
  {
    hide Turn, Step, Reach, Restarts, CommandsFromPose, RestartsAfterCommand, GetsToAct, Acting;
    TurnIs(c, n, inp);
    SameCount(n.arm, inp.step);
    StepExactly(c, n.arm, inp.step, i);
    var m, k := Measured(n.arm.move.joints[i], inp.step.poses(i)), Turn(c, n, inp).arm.move.joints[i];
    HistoryGrows(n.arm.move.joints[i], inp.step.poses(i), strict);
    if n.arm.topic.running {
      if CommandsJoint(c, n, inp, i) {
        assert Sent(m, k, CommandsFromPose(n.arm, inp.step, i), RestartsAfterCommand(c, n.arm, inp.step),
                    Reach(c, n.arm, inp.step, i));
      } else {
        assert Still(m, k, Restarts(c, n.arm, inp.step));
      }
    }
  }

  lemma HistoryGrows(j: Joint, p: Option<real>, strict: bool)
    ensures History(j, strict) <= History(Measured(j, p), strict)
    ensures Measured(j, p).prev == j.prev && Measured(j, p).commands == j.commands && Measured(j, p).velMax == j.velMax
  {
  }

  /** A command that starts in the history of the joint is near to it. */
  lemma CommandIsNear(c: Config, n: Node, inp: NodeInput, i: nat, strict: bool)
    requires Valid(c, n.arm) && i < |n.arm.move.joints| && Follows(n.arm.move.joints[i], strict)
    ensures |Turn(c, n, inp).arm.move.joints| == |Acting(n.arm, inp.step).move.joints| == |n.arm.move.joints|
    ensures CommandsJoint(c, n, inp, i) && KeepsToHistory(c, n, inp, i, strict) ==>
      Near(History(Measured(n.arm.move.joints[i], inp.step.poses(i)), strict),
           Turn(c, n, inp).arm.move.joints[i].sent, Reach(c, n.arm, inp.step, i))
  {
    hide Turn, Acting, Reach, History, LeavesHistory;
    TurnKeepsToHistoryIff(c, n, inp, i, strict);
  }

  // ----- a joint that is read -----

  /** The theorem for one turn of the main loop and a joint that is measured in it: whatever the turn
      does, the joint is commanded at most once, within the reach of one ready step or of its speed
      limit from its last command or from a pose measured since the step of that command began. */
  lemma TurnNeverJumps(c: Config, n: Node, inp: NodeInput, i: nat)
    requires Valid(c, n.arm) && i < |n.arm.move.joints| && Follows(n.arm.move.joints[i], false)
    requires inp.step.poses(i).Some?
    ensures |Turn(c, n, inp).arm.move.joints| == |n.arm.move.joints|
    ensures var j, k := n.arm.move.joints[i], Turn(c, n, inp).arm.move.joints[i];
      && (k.commands == j.commands || k.commands == j.commands + 1)
      && (k.commands == j.commands + 1 ==>
            Near(j.anchors + {inp.step.poses(i).value}, k.sent, Reach(c, n.arm, inp.step, i)))
      && k.velMax == j.velMax && Follows(k, false)
  {
    hide Turn, Step, Reach, Near, CommandsFromPose, Restarts, RestartsAfterCommand, Acting, GetsToAct;
    TurnKeepsToHistoryIff(c, n, inp, i, false);
    CommandIsNear(c, n, inp, i, false);
    TurnIs(c, n, inp);
    StepExactly(c, n.arm, inp.step, i);
  }

  // ----- whole runs -----

  lemma TurnStaysValid(c: Config, n: Node, inp: NodeInput)
    requires Valid(c, n.arm)
    ensures Valid(c, Turn(c, n, inp).arm) && |Turn(c, n, inp).arm.move.joints| == |n.arm.move.joints|
  {
    hide Turn, Origin, Reach, CommandsJoint;
    TurnKeepsToHistoryIff(c, n, inp, 0, true);
    forall i | 0 <= i < |n.arm.move.joints| ensures Turn(c, n, inp).arm.move.joints[i].velMax > 0.0 {
      TurnKeepsToHistoryIff(c, n, inp, i, true);
    }
  }

  lemma {:induction false} RunStaysValid(c: Config, n: Node, ins: nat -> NodeInput, k: nat)
    requires Valid(c, n.arm)
    ensures Valid(c, Run(c, n, ins, k).arm) && |Run(c, n, ins, k).arm.move.joints| == |n.arm.move.joints|
  {
    hide Turn, Valid;
    if k > 0 {
      RunStaysValid(c, n, ins, k - 1);
      TurnStaysValid(c, Run(c, n, ins, k - 1), ins(k - 1));
    }
  }

  predicate HasJoint(c: Config, n: Node, inp: NodeInput, i: nat) {
    i < |n.arm.move.joints| == |Acting(n.arm, inp.step).move.joints| == |Turn(c, n, inp).arm.move.joints|
  }

  /** Turn `k` of the run leaves the history of joint `i`, or keeps to it. */
  predicate LeavesAt(c: Config, n: Node, ins: nat -> NodeInput, i: nat, k: nat, strict: bool) {
    HasJoint(c, Run(c, n, ins, k), ins(k), i) && LeavesHistory(c, Run(c, n, ins, k), ins(k), i, strict)
  }

  predicate KeepsAt(c: Config, n: Node, ins: nat -> NodeInput, i: nat, k: nat, strict: bool) {
    HasJoint(c, Run(c, n, ins, k), ins(k), i) && KeepsToHistory(c, Run(c, n, ins, k), ins(k), i, strict)
  }

  predicate FollowsAt(c: Config, n: Node, ins: nat -> NodeInput, i: nat, k: nat, strict: bool) {
    i < |Run(c, n, ins, k).arm.move.joints| && Follows(Run(c, n, ins, k).arm.move.joints[i], strict)
  }

  lemma TurnOfRun(c: Config, n: Node, ins: nat -> NodeInput, i: nat, k: nat, strict: bool)
    requires Valid(c, n.arm) && i < |n.arm.move.joints| && FollowsAt(c, n, ins, i, k, strict)
    ensures KeepsAt(c, n, ins, i, k, strict) <==> !LeavesAt(c, n, ins, i, k, strict)
    ensures KeepsAt(c, n, ins, i, k, strict) ==> FollowsAt(c, n, ins, i, k + 1, strict)
  {
    hide Turn, Run, Origin, Reach, LeavesHistory, Follows, CommandsJoint, Acting, Valid;
    RunStaysValid(c, n, ins, k);
    RunTurn(c, n, ins, k + 1);
    TurnKeepsToHistoryIff(c, Run(c, n, ins, k), ins(k), i, strict);
  }

  lemma {:induction false} StaysOnHistory(c: Config, n: Node, ins: nat -> NodeInput, i: nat, m: nat, strict: bool)
    requires Valid(c, n.arm) && i < |n.arm.move.joints| && Follows(n.arm.move.joints[i], strict)
    requires forall k: nat :: k < m ==> !LeavesAt(c, n, ins, i, k, strict)
    ensures FollowsAt(c, n, ins, i, m, strict)
    ensures forall k: nat :: k < m ==> KeepsAt(c, n, ins, i, k, strict)
  {
    hide Run, Follows, LeavesAt, KeepsAt, Valid;
    if m == 0 {
      RunAtStart(c, n, ins);
    } else {
      StaysOnHistory(c, n, ins, i, m - 1, strict);
      TurnOfRun(c, n, ins, i, m - 1, strict);
    }
  }

  /** The theorem for whole runs: all commands of joint `i` start in its history, and its slew stays
      there, exactly as long as no turn starts the slew from a pose outside of it. */
  lemma RunKeepsToHistoryIff(c: Config, n: Node, ins: nat -> NodeInput, i: nat, m: nat, strict: bool)
    requires Valid(c, n.arm) && i < |n.arm.move.joints| && Follows(n.arm.move.joints[i], strict)
    ensures (forall k: nat :: k < m ==> KeepsAt(c, n, ins, i, k, strict))
       <==> (forall k: nat :: k < m ==> !LeavesAt(c, n, ins, i, k, strict))
  {
    hide Run, Follows, LeavesAt, KeepsAt, Valid;
    if forall k: nat :: k < m ==> !LeavesAt(c, n, ins, i, k, strict) {
      StaysOnHistory(c, n, ins, i, m, strict);
    }
    if forall k: nat :: k < m ==> KeepsAt(c, n, ins, i, k, strict) {
      KeepingIsNotLeaving(c, n, ins, i, m, strict);
    }
  }

  lemma {:induction false} KeepingIsNotLeaving(c: Config, n: Node, ins: nat -> NodeInput, i: nat, m: nat, strict: bool)
    requires Valid(c, n.arm) && i < |n.arm.move.joints| && Follows(n.arm.move.joints[i], strict)
    requires forall k: nat :: k < m ==> KeepsAt(c, n, ins, i, k, strict)
    ensures FollowsAt(c, n, ins, i, m, strict)
    ensures forall k: nat :: k < m ==> !LeavesAt(c, n, ins, i, k, strict)
  {
    hide Run, Follows, LeavesAt, KeepsAt, Valid;
    if m == 0 {
      RunAtStart(c, n, ins);
    } else {
      KeepingIsNotLeaving(c, n, ins, i, m - 1, strict);
      TurnOfRun(c, n, ins, i, m - 1, strict);
    }
  }

  /** The command of turn `m`, if there is one, is near to the history of joint `i`. */
  ghost predicate NearAt(c: Config, n: Node, ins: nat -> NodeInput, i: nat, m: nat, strict: bool)
    requires c.frequency > 0
  {
    var a, b := Run(c, n, ins, m).arm, Run(c, n, ins, m + 1).arm;
    && i < |a.move.joints| == |b.move.joints|
    && (b.move.joints[i].commands != a.move.joints[i].commands ==>
          Near(History(Measured(a.move.joints[i], ins(m).step.poses(i)), strict), b.move.joints[i].sent,
               Reach(c, a, ins(m).step, i)))
  }

  lemma NeverLeavesNeverJumps(c: Config, n: Node, ins: nat -> NodeInput, i: nat, m: nat, strict: bool)
    requires Valid(c, n.arm) && i < |n.arm.move.joints| && Follows(n.arm.move.joints[i], strict)
    requires forall k: nat :: k <= m ==> !LeavesAt(c, n, ins, i, k, strict)
    ensures NearAt(c, n, ins, i, m, strict)
  {
    hide Run, Turn, Acting, Follows, LeavesAt, KeepsToHistory, Near, Reach, History, Valid;
    StaysOnHistory(c, n, ins, i, m, strict);
    StaysOnHistory(c, n, ins, i, m + 1, strict);
    RunStaysValid(c, n, ins, m);
    RunTurn(c, n, ins, m + 1);
    assert KeepsAt(c, n, ins, i, m, strict);
    IsFollower(c, n.arm);
    CommandIsNear(c, Run(c, n, ins, m), ins(m), i, strict);
  }

  // ----- joints in use -----

  /** Joint `i` is asked by the reading `r`, and answers. */
  predicate InUse(a: Arm, r: ReadTriage.Reading, i: nat) {
    && i < |a.move.joints| && i < |r.codes|
    && !ReadTriage.Excluded(a.move.joints[i].servo, ReadTriage.Unasked(a.move.failed, Tolerates(a), r))
    && r.codes[i].Success? && r.poses(i).Some?
  }

  /** Which joints are measured: a servo in the failed set is not, and one in use is whenever the
      step goes on after the reading. */
  lemma InUseIsMeasured(a: Arm, inp: StepInput, r: ReadTriage.Reading, i: nat)
    requires ReadBy(a, inp, r) && i < |a.move.joints|
    ensures ReadTriage.Excluded(a.move.joints[i].servo, a.move.failed) ==> inp.poses(i).None?
    ensures InUse(a, r, i) && ReadPhase(a, inp).Go? ==> inp.poses(i).Some?
  {
    hide ReadTriage.IsVerdict;
    var servos := Servos(a.move.joints);
    if ReadPhase(a, inp).Go? && !Tolerates(a) {
      ReadTriage.StrictSuccess(servos, a.move.failed, r, inp.read);
      assert forall j :: !ReadTriage.IsHard(servos, a.move.failed, r.codes, j);
    }
  }

  lemma InUseNeverLeaves(c: Config, n: Node, inp: NodeInput, r: ReadTriage.Reading, i: nat)
    requires Valid(c, n.arm) && ReadBy(n.arm, inp.step, r) && InUse(n.arm, r, i)
    ensures HasJoint(c, n, inp, i) && !LeavesHistory(c, n, inp, i, false)
  {
    hide Turn, Step, Reach, CommandsFromPose, RestartsAfterCommand, Acting, GetsToAct, ReadBy, InUse, Valid;
    assert i < |n.arm.move.joints| by {
      InUseExists(n.arm, r, i);
    }
    TurnKeepsToHistoryIff(c, n, inp, i, false);
    InUseIsMeasured(n.arm, inp.step, r, i);
    TurnIs(c, n, inp);
    StepExactly(c, n.arm, inp.step, i);
    if GetsToAct(c, n.arm, inp.step) {
      ReadGoes(c, n.arm, inp.step);
    }
  }

  lemma InUseExists(a: Arm, r: ReadTriage.Reading, i: nat)
    requires InUse(a, r, i)
    ensures i < |a.move.joints|
  {
  }

  /** Over whole runs no command of a joint in use jumps. */
  lemma InUseNeverJumps(c: Config, n: Node, ins: nat -> NodeInput, readings: nat -> ReadTriage.Reading, i: nat, m: nat)
    requires Valid(c, n.arm) && i < |n.arm.move.joints| && Follows(n.arm.move.joints[i], false)
    requires ReadsJudged(c, n, ins, readings)
    requires forall k: nat :: k <= m ==> InUse(Run(c, n, ins, k).arm, readings(k), i)
    ensures NearAt(c, n, ins, i, m, false)
  {
    hide Run, Turn, Acting, Follows, LeavesHistory, Near, Reach, InUse, ReadBy, Valid, NearAt;
    forall k: nat | k <= m ensures !LeavesAt(c, n, ins, i, k, false) {
      RunStaysValid(c, n, ins, k);
      assert ReadBy(Run(c, n, ins, k).arm, ins(k).step, readings(k));
      InUseNeverLeaves(c, Run(c, n, ins, k), ins(k), readings(k), i);
    }
    NeverLeavesNeverJumps(c, n, ins, i, m, false);
  }

  // ----- joints that are not read -----

  /** Nothing has been measured of the joint since the step of its last command began. */
  predicate Unseen(j: Joint) { j.anchors == {j.sent} && j.since == {j.sent} }

  /** Turn `k` starts the slew of joint `i` from a pose that is not its last command. */
  predicate StartsElsewhere(c: Config, n: Node, inp: NodeInput, i: nat)
    requires HasJoint(c, n, inp, i)
  {
    && n.arm.topic.running
    && var j, k := n.arm.move.joints[i], Turn(c, n, inp).arm.move.joints[i];
      if CommandsJoint(c, n, inp, i) then
        || (CommandsFromPose(n.arm, inp.step, i) && j.pos != j.sent)
        || (RestartsAfterCommand(c, n.arm, inp.step) && j.pos != k.sent)
      else Restarts(c, n.arm, inp.step) && j.pos != j.sent
  }

  lemma UnreadTurn(c: Config, n: Node, inp: NodeInput, i: nat)
    requires Valid(c, n.arm) && i < |n.arm.move.joints| && Unseen(n.arm.move.joints[i]) && inp.step.poses(i).None?
    ensures HasJoint(c, n, inp, i)
    ensures n.arm.topic.running ==> Unseen(Turn(c, n, inp).arm.move.joints[i])
    ensures Turn(c, n, inp).arm.move.joints[i].pos == n.arm.move.joints[i].pos
    ensures LeavesHistory(c, n, inp, i, false) <==> StartsElsewhere(c, n, inp, i)
  {
    hide Turn, Step, Reach, CommandsFromPose, Restarts, RestartsAfterCommand, Acting, GetsToAct;
    TurnKeepsToHistoryIff(c, n, inp, i, false);
    TurnIs(c, n, inp);
    StepExactly(c, n.arm, inp.step, i);
  }

  predicate StartsElsewhereAt(c: Config, n: Node, ins: nat -> NodeInput, i: nat, k: nat) {
    HasJoint(c, Run(c, n, ins, k), ins(k), i) && StartsElsewhere(c, Run(c, n, ins, k), ins(k), i)
  }

  lemma {:induction false} UnreadRun(c: Config, n: Node, ins: nat -> NodeInput, i: nat, k: nat)
    requires Valid(c, n.arm) && i < |n.arm.move.joints| && Unseen(n.arm.move.joints[i])
    requires forall m: nat :: m < k ==> ins(m).step.poses(i).None?
    ensures i < |Run(c, n, ins, k).arm.move.joints| && Unseen(Run(c, n, ins, k).arm.move.joints[i])
    ensures Run(c, n, ins, k).arm.move.joints[i].pos == n.arm.move.joints[i].pos
  {
    hide Run, Turn, Acting, Unseen, LeavesHistory, StartsElsewhere, Valid;
    if k == 0 {
      RunAtStart(c, n, ins);
    } else {
      UnreadRun(c, n, ins, i, k - 1);
      RunStaysValid(c, n, ins, k - 1);
      RunTurn(c, n, ins, k);
      TurnIs(c, Run(c, n, ins, k - 1), ins(k - 1));
      UnreadTurn(c, Run(c, n, ins, k - 1), ins(k - 1), i);
    }
  }

  /** A joint that is not read keeps to its history, which is its last command, exactly as long as no
      turn starts its slew over from the old pose: no request or recovery is taken up, no move begins,
      ends or is restored, no hold takes effect and no finished arm holds it, unless its last command
      was that pose. */
  lemma UnreadKeepsIff(c: Config, n: Node, ins: nat -> NodeInput, i: nat, m: nat)
    requires Valid(c, n.arm) && i < |n.arm.move.joints|
    requires Unseen(n.arm.move.joints[i]) && Follows(n.arm.move.joints[i], false)
    requires forall k: nat :: k < m ==> ins(k).step.poses(i).None?
    ensures (forall k: nat :: k < m ==> KeepsAt(c, n, ins, i, k, false))
       <==> (forall k: nat :: k < m ==> !StartsElsewhereAt(c, n, ins, i, k))
  {
    hide Run, Turn, Acting, Unseen, LeavesHistory, StartsElsewhere, Follows, KeepsAt, Valid;
    forall k: nat | k < m ensures LeavesAt(c, n, ins, i, k, false) <==> StartsElsewhereAt(c, n, ins, i, k) {
      UnreadRun(c, n, ins, i, k);
      RunStaysValid(c, n, ins, k);
      UnreadTurn(c, Run(c, n, ins, k), ins(k), i);
    }
    RunKeepsToHistoryIff(c, n, ins, i, m, false);
  }
}
