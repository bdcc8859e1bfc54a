/** The other half of the fence: when the hardware answers and no message is lost, the request is
    served and the call returns, for every arm, effector and sequence of measurements.  A copy of
    the request that arrives after that starts the move over. */
module RequestServed {
  import opened Wrappers
  import opened Control
  import opened ReadyMove
  import opened Device
  import opened ControlNode
  import opened CommandedMove
  import opened Fence
  import opened FenceProtocol
  import ReadTriage
  import Slew

  /** The only message is the request, and everything succeeds. */
  ghost predicate Hears(inp: StepInput, id: int) {
    && Nominal(inp.(messages := [])) && inp.messages == [MoveToReady(id)]
    && inp.leading.Success? && inp.floating.Success?
  }

  /** Neither recovering nor on a commanded move, nor about to stop. */
  predicate Free(c: Config, a: Arm) {
    && !InRecovery(a) && a.topic.running && c.frequency > 0 && !a.command.stopAfter
    && (a.command.state.Idle? || (a.command.state.Moving? && a.ready))
  }

  predicate Observed(a: Arm) { LeaderObservation in a.topic.events || FollowerObservation in a.topic.events }

  /** What neither the motion of the joints nor the effector touches. */
  predicate Calm(a: Arm, b: Arm) {
    && b.recovery.state == a.recovery.state && b.topic.running == a.topic.running
    && b.command.stopAfter == a.command.stopAfter
  }

  // ----- the request is heard -----

  lemma ActingWhenFree(c: Config, a: Arm, inp: StepInput)
    requires Free(c, a)
    ensures Free(c, Acting(a, inp)) && PreparePhase(ReadPhase(a, inp).arm, inp) == ReadPhase(a, inp).arm
  {
  }

  lemma MoveGoes(c: Config, a: Arm, inp: StepInput)
    requires Free(c, a) && Nominal(inp.(messages := []))
    ensures var r := MoveToReadyPosition(c, a, inp); r.Go? && Calm(a, r.arm)
  {
    hide Tick, TickCode, CommandedUpTo, Attempts, LoopCode, AllCleared;
    AllAttempted(inp.codes, |a.move.joints|);
    var m := Ready(a.move, StepLength(c, a));
    AllCommandsAccepted(m.joints, m.failed, inp.codes, |m.joints|);
    TickCodeIsLast(a.move, StepLength(c, a), inp.codes);
  }

  lemma TickCodeIsLast(m: Move, step: real, codes: nat -> ReturnCode)
    ensures var r := Ready(m, step); TickCode(m, step, codes) == LastCode(r.joints, r.failed, codes, |r.joints|)
  {
  }

  lemma OperateGoes(c: Config, a: Arm, inp: StepInput)
    requires c.frequency > 0 && Nominal(inp.(messages := [])) && inp.floating.Success?
    ensures var r := OperateAsFollower(c, a, inp); r.Go? && Calm(a, r.arm)
  {
    hide Slew.Tick, Goals, CommandedUpTo, Attempts, LoopCode, AllCleared;
    AllAttempted(inp.codes, |a.move.joints|);
  }

  lemma ActGoes(c: Config, a: Arm, inp: StepInput, id: int)
    requires Free(c, a) && Hears(inp, id)
    ensures var r := ActPhase(c, a, inp); r.Go? && Calm(a, r.arm)
  {
    hide MoveToReadyPosition, OperateAsFollower, AllCleared, AllRebased;
    MoveGoes(c, a, inp);
    OperateGoes(c, Restore(c, a, inp), inp);
  }

  /** An arm that has the request `id` in front of it, and says so. */
  predicate Asked(a: Arm, id: int) {
    JustRequested(a, id) && a.topic.running && !a.command.stopAfter && RequestReceived(id) in a.topic.events
  }

  lemma FinishHears(c: Config, a: Arm, inp: StepInput, id: int)
    requires !InRecovery(a) && a.topic.running && !a.command.stopAfter && Hears(inp, id)
    ensures var r := FinishPhase(c, a, inp);
      && r.code.Success? && Asked(r.arm, id)
      && (r.arm.effector.Some? ==> EffectorAsked(r.arm.effector.value))
  {
    hide AllAimed, AllCleared, AllRebased;
    var b := PublishObservation(c, a, inp).arm;
    assert DispatchAll(c, b, inp, 0) == b;
    assert DispatchAll(c, b, inp, 1) == RequestMove(b, id);
    var d := RequestMove(b, id);
    assert d.topic.events == b.topic.events + [RequestReceived(id)];
  }

  lemma StepHears(c: Config, a: Arm, inp: StepInput, id: int)
    requires Free(c, a) && Hears(inp, id)
    ensures var r := Step(c, a, inp);
      && r.code.Success? && Asked(r.arm, id)
      && (r.arm.effector.Some? ==> EffectorAsked(r.arm.effector.value))
  {
    hide PreparePhase, ProgressPhase, ActPhase, FinishPhase, Asked;
    ActingWhenFree(c, a, inp);
    ActGoes(c, Acting(a, inp), inp, id);
    FinishHears(c, ActPhase(c, Acting(a, inp), inp).arm, inp, id);
  }

  /** The turn in which the request arrives: the effector is on its move at once, the arm takes
      the request up in the next turn. */
  lemma RequestIsHeard(c: Config, n: Node, inp: NodeInput, id: int)
    requires Free(c, n.arm) && Hears(inp.step, id)
    ensures Asked(Turn(c, n, inp).arm, id) && !Turn(c, n, inp).informed
  {
    hide Step, EffectorStep, Begun;
    StepHears(c, n.arm, inp.step, id);
    var a := Step(c, n.arm, inp.step).arm;
    if a.effector.Some? {
      EffectorBegins(c, a.effector.value, inp.step.effector);
    }
    assert ArmStep(c, n.arm, inp.step).code.Success?;
  }

  // ----- and carried out -----

  /** Asked for or on the way. */
  predicate InHand(a: Arm, id: int) {
    && (JustRequested(a, id) || OnCommandedMove(a, id)) && a.topic.running && !a.command.stopAfter
  }

  lemma ActStaysCalm(c: Config, a: Arm, inp: StepInput)
    requires !InRecovery(a) && !a.ready && a.command.state.Moving?
    ensures var r := ActPhase(c, a, inp);
      Calm(a, r.arm) && r.arm.command.state.Moving? && (r.Return? ==> !r.code.Success?)
  {
    hide Tick, TickCode, CommandedUpTo, Attempts, LoopCode, AllCleared, AllRebased;
  }

  lemma FinishStaysCalm(c: Config, a: Arm, inp: StepInput)
    requires !InRecovery(a) && Nominal(inp) && a.command.state.Moving?
    ensures var b := FinishPhase(c, a, inp).arm;
      Calm(a, b) && b.command.state.Moving? && Observed(b)
  {
    hide AllAimed, AllCleared, AllRebased;
    var e := if c.role.Leader? then LeaderObservation else FollowerObservation;
    var b := PublishObservation(c, a, inp).arm;
    assert b.topic.events == a.topic.events + [e];
    assert DispatchAll(c, b, inp, 0) == b;
  }

  lemma ActingCalm(a: Arm, inp: StepInput, id: int)
    requires InHand(a, id)
    ensures var b := Acting(a, inp);
      Calm(a, b) && !InRecovery(b) && !b.ready && b.command.state.Moving? && b.recovery == a.recovery
  {
    hide EffectorAsked, EffectorOnMove, Begun;
  }

  lemma StepStaysCalm(c: Config, a: Arm, inp: StepInput, id: int)
    requires InHand(a, id) && Nominal(inp) && ArmStep(c, a, inp).code.Success?
    ensures var b := ArmStep(c, a, inp).arm;
      Calm(a, b) && b.command.state.Moving? && Observed(b)
  {
    hide Acting, ActPhase, FinishPhase, Step, EffectorStep;
    ActingCalm(a, inp, id);
    StepIsMove(c, a, inp);
    var r := ActPhase(c, Acting(a, inp), inp);
    ActStaysCalm(c, Acting(a, inp), inp);
    if r.Go? {
      FinishStaysCalm(c, r.arm, inp);
    }
  }

  /** A turn of the loop on a move that is in hand: it goes on, or it ends and is announced. */
  lemma QuietTurn(c: Config, n: Node, inp: NodeInput, id: int)
    requires InHand(n.arm, id) && Nominal(inp.step) && !n.informed && id > 0
    ensures var a := ArmStep(c, n.arm, inp.step).arm; var m := Turn(c, n, inp);
      && Calm(n.arm, m.arm) && Observed(m.arm) && m.arm.ready == a.ready && m.arm.command.state.Moving?
      && (!a.ready ==> m == Node(a, false, n.remaining) && InHand(m.arm, id))
      && (a.ready ==> ReadyNow(id) in m.arm.topic.events)
  {
    hide ArmStep, Begun, JustRequested, Window;
    if JustRequested(n.arm, id) {
      FirstStep(c, n.arm, inp.step, id);
    } else {
      NextStep(c, n.arm, inp.step, id);
    }
    StepStaysCalm(c, n.arm, inp.step, id);
    WindowIsOpen(c);
  }

  lemma WindowIsOpen(c: Config)
    ensures Window(c) > 0
  {
  }

  function Steps(ins: nat -> NodeInput): nat -> StepInput { (k: nat) => ins(k).step }

  /** Until it is ready the arm does what `CommandedMove` says. */
  lemma {:induction false} InHandSoFar(c: Config, n: Node, ins: nat -> NodeInput, id: int, k: nat)
    requires InHand(n.arm, id) && !n.informed && id > 0 && AllNominal(Steps(ins))
    requires NotReadyUpTo(c, n.arm, Steps(ins), k + 1)
    ensures var m := Run(c, n, ins, k);
      m.arm == ArmRun(c, n.arm, Steps(ins), k) && !m.informed && InHand(m.arm, id)
  {
    hide InHand, Nominal, ArmStep, Turn;
    if k > 0 {
      InHandSoFar(c, n, ins, id, k - 1);
      assert Nominal(Steps(ins)(k - 1));
      QuietTurn(c, Run(c, n, ins, k - 1), ins(k - 1), id);
    }
  }

  /** The request is carried out and announced. */
  lemma RequestIsCarriedOut(c: Config, n: Node, ins: nat -> NodeInput, id: int) returns (k: nat)
    requires Asked(n.arm, id) && !n.informed && id > 0 && c.frequency > 0 && AllNominal(Steps(ins))
    ensures InTime(c, n.arm, ins(0).step, k)
    ensures var m := Run(c, n, ins, k);
      Free(c, m.arm) && m.arm.ready && Observed(m.arm) && ReadyNow(id) in m.arm.topic.events
  {
    hide Nominal, ArmStep, Turn, ArmRun, Run, ArmCalls, EffectorCalls, JustRequested, OnCommandedMove;
    var a := n.arm;
    k := CommandedMoveFinishes(c, a, Steps(ins), id);
    InHandSoFar(c, n, ins, id, k - 1);
    var m := Run(c, n, ins, k - 1);
    RunTurn(c, n, ins, k);
    ArmRunStep(c, a, Steps(ins), k - 1);
    assert Nominal(Steps(ins)(k - 1));
    QuietTurn(c, m, ins(k - 1), id);
    HandsAreCalm(m.arm, id);
  }

  /** Within the calls the arm needs, or one more than its effector does. */
  predicate InTime(c: Config, a: Arm, inp: StepInput, k: nat) {
    1 <= k && (k <= ArmCalls(c, a, inp) || (!EffectorDone(a) && k <= EffectorCalls(c, a, inp) + 1))
  }

  lemma HandsAreCalm(a: Arm, id: int)
    requires InHand(a, id)
    ensures !InRecovery(a)
  {
  }

  // ----- the whole session -----

  datatype Trace = Trace(states: seq<System>, acts: seq<Action>)

  ghost predicate Proper(c: Config, h: Trace) {
    Execution(c, h.states, h.acts) && |h.states| > 0 && Start(h.states[0])
  }

  function Now(h: Trace): System
    requires |h.states| > 0
  {
    h.states[|h.states| - 1]
  }

  lemma Extend(c: Config, h: Trace, act: Action) returns (longer: Trace)
    requires |h.states| > 0 && Proper(c, h) && Possible(Now(h), act)
    ensures |longer.states| > 0 && Proper(c, longer) && Now(longer) == Next(c, Now(h), act)
    ensures longer.acts == h.acts + [act]
  {
    hide Start, Next, Possible;
    longer := Trace(h.states + [Next(c, Now(h), act)], h.acts + [act]);
  }

  function TurnActions(ins: nat -> NodeInput, k: nat): seq<Action> {
    seq(k, (j: nat) => NodeTurn(ins(j)))
  }

  /** Turns in which no command arrives. */
  lemma {:induction false} TurnsPass(c: Config, h: Trace, ins: nat -> NodeInput, k: nat) returns (longer: Trace)
    requires |h.states| > 0 && Proper(c, h) && AllNominal(Steps(ins))
    ensures |longer.states| > 0 && Proper(c, longer) && Now(longer).node == Run(c, Now(h).node, ins, k)
    ensures Now(longer).client == Now(h).client && Now(longer).sent == Now(h).sent
    ensures longer.acts == h.acts + TurnActions(ins, k)
  {
    hide Turn, Proper;
    longer := h;
    if k > 0 {
      longer := TurnsPass(c, h, ins, k - 1);
      assert Nominal(Steps(ins)(k - 1));
      longer := Extend(c, longer, NodeTurn(ins(k - 1)));
    }
  }

  /** The call has just asked: its request is at the node, and it waits for the acknowledgement. */
  predicate Underway(s: System) {
    && Asked(s.node.arm, 1) && !s.node.informed && MoveToReady(1) in s.sent
    && s.client == Client(1, Some(1), None, 0, false, Some(1), map[], Acking(1))
  }

  /** A node that has served no request yet. */
  predicate Unused(c: Config, n: Node) {
    Free(c, n.arm) && n.arm.topic.events == [] && n.arm.command == Command(Device.Idle, 0, 0, false)
  }

  lemma Alone(c: Config, s: System)
    requires Start(s)
    ensures Proper(c, Trace([s], []))
  {
  }

  lemma RequestTravels(c: Config, n: Node, first: NodeInput) returns (h: Trace)
    requires Unused(c, n) && Hears(first.step, 1)
    ensures |h.states| > 0 && Proper(c, h) && Underway(Now(h)) && Now(h).node == Turn(c, n, first)
    ensures h.acts == [Begin, Enter, Send, NodeTurn(first)]
  {
    hide Turn, Asked, Free, Proper, Nominal;
    Alone(c, System(n, NewClient(), {}, []));
    h := Trace([System(n, NewClient(), {}, [])], []);
    h := Extend(c, h, Begin);
    h := Extend(c, h, Enter);
    h := Extend(c, h, Send);
    RequestIsHeard(c, n, first, 1);
    h := Extend(c, h, NodeTurn(first));
  }

  /** The acknowledgement arrives. */
  lemma Answered(c: Config, h: Trace) returns (longer: Trace)
    requires |h.states| > 0 && Proper(c, h) && Underway(Now(h))
    ensures |longer.states| > 0 && Proper(c, longer) && Now(longer).node == Now(h).node
    ensures Accepted(Now(longer)) && longer.acts == h.acts + [ReceiveAck(1, 0), Acknowledged]
  {
    hide Proper;
    longer := Extend(c, h, ReceiveAck(1, 0));
    longer := Extend(c, longer, Acknowledged);
  }

  predicate Accepted(s: System) {
    && MoveToReady(1) in s.sent && s.client.call == Waiting(1)
    && s.client.pendingReady == Some(1) && s.client.fence.None?
  }

  /** The announcement arrives, and a state sample. */
  lemma Released(c: Config, h: Trace) returns (longer: Trace)
    requires |h.states| > 0 && Proper(c, h) && Accepted(Now(h))
    requires var a := Now(h).node.arm; ReadyNow(1) in a.topic.events && Observed(a)
    ensures |longer.states| > 0 && Proper(c, longer) && Now(longer).node == Now(h).node
    ensures Now(longer).client.call.Idle? && Now(longer).sent == Now(h).sent
    ensures longer.acts == h.acts + [ReceiveReady(1), ReceiveState, EndCall]
  {
    hide Proper;
    longer := Extend(c, h, ReceiveReady(1));
    longer := Extend(c, longer, ReceiveState);
    longer := Extend(c, longer, EndCall);
  }

  /** For every node that has served no request yet, whatever its arm, its effector and the
      measurements are: if the hardware answers and the messages arrive, the call returns. */
  lemma RequestIsServed(c: Config, n: Node, first: NodeInput, ins: nat -> NodeInput) returns (h: Trace, k: nat)
    requires Unused(c, n) && Hears(first.step, 1) && AllNominal(Steps(ins))
    ensures |h.states| > 0 && Proper(c, h)
    ensures h.acts == [Begin, Enter, Send, NodeTurn(first), ReceiveAck(1, 0), Acknowledged]
                      + TurnActions(ins, k) + [ReceiveReady(1), ReceiveState, EndCall]
    ensures InTime(c, Turn(c, n, first).arm, ins(0).step, k)
    ensures Now(h).node == Run(c, Turn(c, n, first), ins, k) && Free(c, Now(h).node.arm)
    ensures Now(h).client.call.Idle? && MoveToReady(1) in Now(h).sent
  {
    hide Turn, Asked, Proper, Nominal, Run, InTime, Observed;
    h := RequestTravels(c, n, first);
    k := RequestIsCarriedOut(c, Now(h).node, ins, 1);
    h := Answered(c, h);
    h := TurnsPass(c, h, ins, k);
    h := Released(c, h);
  }

  /** What hardware contributes that answers and does not move. */
  function Quiet(messages: seq<Message>): NodeInput {
    var still := (i: nat) => None;
    var fine := (i: nat) => Success;
    var read := ReadTriage.Verdict(Success, {});
    NodeInput(
      StepInput(still, read, true, true, true, 0, 0, 0, 0, 0.0, 0.0, 0.0, Success, fine,
                (i: nat) => false, (i: nat) => Safety(false, None),
                false, Success, Success, Success, Success, messages, None, None, Success, false,
                EffectorInput(still, read, fine, Success, Success)), -1)
  }

  lemma QuietIsNominal(messages: seq<Message>)
    ensures Nominal(Quiet(messages).step.(messages := []))
    ensures Quiet(messages).step.messages == messages
    ensures Quiet(messages).step.leading.Success? && Quiet(messages).step.floating.Success?
  {
  }

  /** Hence every such node has a session in which the call returns. */
  lemma ReturnIsReachable(c: Config, n: Node) returns (h: Trace)
    requires Unused(c, n)
    ensures Proper(c, h) && EndCall in h.acts
  {
    hide Unused, Proper, Nominal, Quiet;
    var ins := (k: nat) => Quiet([]);
    QuietIsNominal([MoveToReady(1)]);
    QuietIsNominal([]);
    assert Quiet([]).step.(messages := []) == Quiet([]).step;
    var k;
    h, k := RequestIsServed(c, n, Quiet([MoveToReady(1)]), ins);
    assert h.acts[|h.acts| - 1] == EndCall;
  }

  // ----- copies -----

  /** A copy of a request, however old, starts the move over. */
  lemma CopyStartsOver(c: Config, s: System, id: int, inp: NodeInput)
    requires MoveToReady(id) in s.sent && Free(c, s.node.arm) && Hears(inp.step, id)
    ensures Possible(s, NodeTurn(inp)) && JustRequested(Next(c, s, NodeTurn(inp)).node.arm, id)
  {
    hide Turn, Free, Nominal;
    RequestIsHeard(c, s.node, inp, id);
  }

  /** So there is a session in which the call has returned and its own request moves the arm. */
  lemma ReturnedButMoving(c: Config, n: Node, first: NodeInput, ins: nat -> NodeInput, copy: NodeInput)
    returns (h: Trace)
    requires Unused(c, n) && Hears(first.step, 1) && AllNominal(Steps(ins)) && Hears(copy.step, 1)
    ensures |h.states| > 0 && Proper(c, h) && EndCall in h.acts && Now(h).client.call.Idle?
    ensures JustRequested(Now(h).node.arm, 1)
  {
    hide Turn, Free, Proper, Nominal, Run, InTime;
    var k;
    h, k := RequestIsServed(c, n, first, ins);
    CopyStartsOver(c, Now(h), 1, copy);
    assert h.acts[|h.acts| - 1] == EndCall;
    h := Extend(c, h, NodeTurn(copy));
  }
}
