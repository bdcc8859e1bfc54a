/** The main loop of the control node: step the arm, enter recovery on the first failing step,
    announce readiness for a while. */
module ControlNode {
  import opened Device

  /** `informed` and `remaining` are the announcement window of the current readiness. */
  datatype Node = Node(arm: Arm, informed: bool, remaining: int)

  /** `joint` is the joint the arm last named as failed. */
  datatype NodeInput = NodeInput(step: StepInput, joint: int)

  function Window(c: Config): (n: int)
    ensures n >= 1
  {
    if c.frequency >= 1 then c.frequency else 1
  }

  function Interval(c: Config): (n: int)
    ensures 1 <= n <= Window(c)
  {
    if c.frequency >= 10 then c.frequency / 10 else 1
  }

  /** The id an announcement carries; zero stands for none. */
  function AnnouncedId(a: Arm): int {
    if a.command.completedId > 0 then a.command.completedId else 0
  }

  function Announce(c: Config, n: Node): Node {
    if !n.arm.ready then n.(informed := false)
    else
      var left := if n.informed then n.remaining else Window(c);
      if left <= 0 then n.(informed := true, remaining := left)
      else
        var arm := if left == Window(c) || left % Interval(c) == 0
                   then n.arm.(topic := Emit(n.arm.topic, ReadyNow(AnnouncedId(n.arm)))) else n.arm;
        Node(arm, true, left - 1)
  }

  /** The arm after its step, and after a failing step outside recovery has started one. */
  function Supervised(c: Config, a: Arm, inp: NodeInput): Arm {
    var r := ArmStep(c, a, inp.step);
    if !r.code.Success? && !InRecovery(r.arm) then EnterRecovery(r.arm, r.code, inp.joint) else r.arm
  }

  /** One turn of the loop; once the topic has stopped there are none. */
  function Turn(c: Config, n: Node, inp: NodeInput): Node {
    if !n.arm.topic.running then n
    else Announce(c, n.(arm := Supervised(c, n.arm, inp)))
  }

  /** The node after `k` turns. */
  function Run(c: Config, n: Node, ins: nat -> NodeInput, k: nat): Node {
    if k == 0 then n else Turn(c, Run(c, n, ins, k - 1), ins(k - 1))
  }

  lemma RunAtStart(c: Config, n: Node, ins: nat -> NodeInput)
    ensures Run(c, n, ins, 0) == n
  {
  }

  lemma AnnounceAddsEvents(c: Config, n: Node)
    ensures Announce(c, n).arm == n.arm.(topic := n.arm.topic.(events := Announce(c, n).arm.topic.events))
  {
  }

  lemma RunTurn(c: Config, n: Node, ins: nat -> NodeInput, k: nat)
    requires k > 0
    ensures Run(c, n, ins, k) == Turn(c, Run(c, n, ins, k - 1), ins(k - 1))
  {
  }

  /** The window follows the readiness: after every turn the loop is informed exactly if the arm
      is ready. */
  lemma {:induction false} InformedIffReady(c: Config, n: Node, ins: nat -> NodeInput, k: nat)
    requires n.informed == n.arm.ready
    ensures Run(c, n, ins, k).informed == Run(c, n, ins, k).arm.ready
  {
    hide Supervised;
    if k > 0 {
      InformedIffReady(c, n, ins, k - 1);
    }
  }

  /** Hence every change to ready is announced in the turn in which it happens, with the id of the
      request it completes, if any. */
  lemma ReadinessIsAnnouncedAtOnce(c: Config, n: Node, ins: nat -> NodeInput, k: nat)
    requires n.informed == n.arm.ready
    requires !Run(c, n, ins, k).arm.ready && Run(c, n, ins, k + 1).arm.ready
    ensures var a := Run(c, n, ins, k + 1).arm; var e := a.topic.events;
      |e| > 0 && e[|e| - 1] == ReadyNow(AnnouncedId(a))
  {
    hide Supervised, Run;
    InformedIffReady(c, n, ins, k);
    RunTurn(c, n, ins, k + 1);
  }
}
