/** A client waiting for a commanded ready move: requests, acknowledgements, announcements of
    readiness and state samples travel on channels that lose, duplicate, reorder and delay.  The
    functions are the critical sections of the client; the class carries them out. */
module Fence {
  import opened Wrappers

  /** The caller of `move_to_ready`: at most one, behind its lock. */
  datatype Call = Idle | Starting(id: int) | Acking(id: int) | Waiting(id: int)

  /** The fields of the client that its condition variable guards. */
  datatype Client = Client(
    counter: int, pendingReady: Option<int>, fence: Option<nat>, generation: nat, ready: bool,
    pendingAck: Option<int>, acks: map<int, int>, call: Call)

  function NewClient(): Client { Client(0, None, None, 0, false, None, map[], Idle) }

  /** A fresh id; from here on only a READY that carries it counts. */
  function BeginMove(c: Client): Client {
    var id := c.counter + 1;
    c.(counter := id, pendingReady := Some(id), fence := None, ready := false, call := Starting(id))
  }

  /** Another request of the client takes an id. */
  function TakeId(c: Client): Client { c.(counter := c.counter + 1) }

  function BeginAck(c: Client): Client
    requires c.call.Starting?
  {
    c.(pendingAck := Some(c.call.id), call := Acking(c.call.id))
  }

  function ConsumeAck(c: Client, id: int, code: int): Client {
    if c.pendingAck == Some(id) then c.(acks := c.acks[id := code]) else c
  }

  /** READY with the id it carries, zero for none. */
  function ConsumeReady(c: Client, id: int): Client {
    match c.pendingReady
    case None => c.(ready := true)
    case Some(r) => if c.fence.None? && id != 0 && id == r then c.(fence := Some(c.generation)) else c
  }

  function ConsumeState(c: Client): Client {
    var d := c.(generation := c.generation + 1);
    if d.pendingReady.Some? && d.fence.Some? && d.generation > d.fence.value
    then d.(pendingReady := None, fence := None, ready := true) else d
  }

  /** Leaving the call, normally or by an exception. */
  function Leave(c: Client): Client {
    if c.call.Idle? then c
    else
      var d := c.(call := Idle, pendingAck := None, acks := c.acks - {c.call.id});
      if d.pendingReady == Some(c.call.id) then d.(pendingReady := None, fence := None) else d
  }

  predicate CanProceed(c: Client) { c.call.Acking? && c.call.id in c.acks && c.acks[c.call.id] == 0 }

  function Proceed(c: Client): Client
    requires c.call.Acking?
  {
    c.(call := Waiting(c.call.id), pendingAck := None, acks := c.acks - {c.call.id})
  }

  predicate CanReturn(c: Client) { c.call.Waiting? && c.ready }

  /** The client object, one method per critical section. */
  class NativeClient {
    var requestId: int
    var pendingReadyRequestId: Option<int>
    var pendingReadyStateGeneration: Option<nat>
    var stateGeneration: nat
    var ready: bool
    var pendingAckRequestId: Option<int>
    var acks: map<int, int>
    ghost var call: Call

    constructor ()
      ensures View() == NewClient()
    {
      requestId, pendingReadyRequestId, pendingReadyStateGeneration := 0, None, None;
      stateGeneration, ready, pendingAckRequestId, acks, call := 0, false, None, map[], Idle;
    }

    ghost function View(): Client
      reads this
    {
      Client(requestId, pendingReadyRequestId, pendingReadyStateGeneration, stateGeneration, ready,
             pendingAckRequestId, acks, call)
    }

    method BeginMoveToReady() returns (id: int)
      requires call.Idle?
      modifies this
      ensures View() == BeginMove(old(View())) && id == old(requestId) + 1
    {
      requestId := requestId + 1;
      id := requestId;
      pendingReadyRequestId := Some(id);
      pendingReadyStateGeneration := None;
      ready := false;
      call := Starting(id);
    }

    method BeginLifecycle(id: int)
      requires call == Starting(id)
      modifies this
      ensures View() == BeginAck(old(View()))
    {
      pendingAckRequestId := Some(id);
      call := Acking(id);
    }

    method ConsumeCommandAck(id: int, code: int)
      modifies this
      ensures View() == ConsumeAck(old(View()), id, code)
    {
      if pendingAckRequestId == Some(id) {
        acks := acks[id := code];
      }
    }

    method ConsumeReadyStatus(ints: seq<int>)
      requires |ints| > 0 ==> ints[0] != 0
      modifies this
      ensures View() == ConsumeReady(old(View()), if |ints| > 0 then ints[0] else 0)
    {
      if pendingReadyRequestId.None? {
        ready := true;
      } else if pendingReadyStateGeneration.None? && |ints| > 0 && ints[0] == pendingReadyRequestId.value {
        pendingReadyStateGeneration := Some(stateGeneration);
      }
    }

    method ConsumeStateSample()
      modifies this
      ensures View() == ConsumeState(old(View()))
    {
      stateGeneration := stateGeneration + 1;
      if pendingReadyRequestId.Some? && pendingReadyStateGeneration.Some?
         && stateGeneration > pendingReadyStateGeneration.value
      {
        pendingReadyRequestId, pendingReadyStateGeneration, ready := None, None, true;
      }
    }

    /** The acknowledgement has arrived: the code decides between waiting and giving up. */
    method FinishLifecycle(id: int) returns (accepted: bool)
      requires call == Acking(id) && id in acks
      modifies this
      ensures accepted == CanProceed(old(View()))
      ensures View() == if accepted then Proceed(old(View())) else Leave(old(View()))
    {
      accepted := acks[id] == 0;
      acks := acks - {id};
      pendingAckRequestId := None;
      if accepted {
        call := Waiting(id);
      } else {
        if pendingReadyRequestId == Some(id) {
          pendingReadyRequestId, pendingReadyStateGeneration := None, None;
        }
        call := Idle;
      }
    }

    /** The end of the call; `id` is its request. */
    method EndMoveToReady(id: int)
      requires call != Idle && call.id == id
      modifies this
      ensures View() == Leave(old(View()))
    {
      pendingAckRequestId := None;
      acks := acks - {id};
      if pendingReadyRequestId == Some(id) {
        pendingReadyRequestId, pendingReadyStateGeneration := None, None;
      }
      call := Idle;
    }
  }
}

/** The client and the node together. */
module FenceProtocol {
  import opened Wrappers
  import opened Device
  import opened ControlNode
  import opened ReadyRequests
  import opened Fence

  /** The history of a session: what the client did and what happened at the node. */
  datatype Entry =
    | IdTaken(id: int)
    | AtNode(event: Event)
    | ReadyTaken(id: int)
    | StateTaken
    | Returned(id: int)

  /** `sent` are the commands ever sent; whatever the node has published can be received at any
      later time, any number of times, or never. */
  datatype System = System(node: Node, client: Client, sent: set<Message>, log: seq<Entry>)

  datatype Action =
    | NodeTurn(input: NodeInput)
    | Begin                               // move_to_ready allocates its id
    | Enter                               // ... and waits for the acknowledgement,
    | Send                                // sending the request again and again
    | OtherCommand(message: Message)      // any other command of the client
    | ReceiveAck(id: int, code: int)
    | ReceiveReady(id: int)
    | ReceiveState
    | Acknowledged
    | Fail                                // timeout, rejection, fault, lost connection
    | EndCall

  predicate Published(s: System, e: Event) { e in s.node.arm.topic.events }

  predicate Possible(s: System, act: Action) {
    match act
    case NodeTurn(inp) => forall i :: 0 <= i < |inp.step.messages| ==> inp.step.messages[i] in s.sent
    case Begin => s.client.call.Idle?
    case Enter => s.client.call.Starting?
    case Send => s.client.call.Acking?
    case OtherCommand(msg) => !s.client.call.Acking? && (IdOf(msg) == 0 || IdOf(msg) == s.client.counter + 1)
    case ReceiveAck(id, code) => code != 0 || Published(s, RequestReceived(id))
    case ReceiveReady(id) => Published(s, ReadyNow(id))
    case ReceiveState => Published(s, LeaderObservation) || Published(s, FollowerObservation)
    case Acknowledged => CanProceed(s.client)
    case Fail => !s.client.call.Idle?
    case EndCall => CanReturn(s.client)
  }

  function Logged(events: seq<Event>): (r: seq<Entry>)
    ensures |r| == |events|
    ensures forall i :: 0 <= i < |events| ==> r[i] == AtNode(events[i])
  {
    seq(|events|, i requires 0 <= i < |events| => AtNode(events[i]))
  }

  /** The events a turn has added. */
  function Added(before: Node, after: Node): seq<Event> {
    var n := |before.arm.topic.events|;
    if n <= |after.arm.topic.events| then after.arm.topic.events[n..] else []
  }

  function Next(c: Config, s: System, act: Action): System
    requires Possible(s, act)
  {
    match act
    case NodeTurn(inp) =>
      var after := Turn(c, s.node, inp);
      s.(node := after, log := s.log + Logged(Added(s.node, after)))
    case Begin =>
      var d := BeginMove(s.client);
      s.(client := d, log := s.log + [IdTaken(d.counter)])
    case Enter => s.(client := BeginAck(s.client))
    case Send => s.(sent := s.sent + {MoveToReady(s.client.call.id)})
    case OtherCommand(msg) =>
      var d := TakeId(s.client);
      s.(client := d, sent := s.sent + {msg}, log := s.log + [IdTaken(d.counter)])
    case ReceiveAck(id, code) => s.(client := ConsumeAck(s.client, id, code))
    case ReceiveReady(id) => s.(client := ConsumeReady(s.client, id), log := s.log + [ReadyTaken(id)])
    case ReceiveState => s.(client := ConsumeState(s.client), log := s.log + [StateTaken])
    case Acknowledged => s.(client := Proceed(s.client))
    case Fail => s.(client := Leave(s.client))
    case EndCall => s.(client := Leave(s.client), log := s.log + [Returned(s.client.call.id)])
  }

  predicate Execution(c: Config, states: seq<System>, acts: seq<Action>) {
    && |states| == |acts| + 1
    && forall i :: 0 <= i < |acts| ==> Possible(states[i], acts[i]) && states[i + 1] == Next(c, states[i], acts[i])
  }

  /** A session starts with a node that has served no request and a new client. */
  predicate Start(s: System) {
    && s.node.arm.topic.events == [] && s.node.arm.command == Command(Device.Idle, 0, 0, false)
    && s.client == NewClient() && s.sent == {} && s.log == []
  }

  // ----- the journey of one request -----

  datatype Trip = Unknown | Asked | Heard | Underway | Done | Announced | Fenced | Fresh | Broken

  function Rank(t: Trip): int {
    match t
    case Unknown => 0 case Asked => 1 case Heard => 2 case Underway => 3 case Done => 4
    case Announced => 5 case Fenced => 6 case Fresh => 7 case Broken => 8
  }

  /** Each station is passed in order; coming back to an earlier one does no harm, skipping one
      breaks the journey. */
  function At(t: Trip, station: Trip): Trip {
    if t.Broken? then t
    else if Rank(t) >= Rank(station) then t
    else if Rank(t) == Rank(station) - 1 then station
    else Broken
  }

  function Onward(t: Trip, r: int, e: Entry): Trip {
    match e
    case IdTaken(id) => if id != r then t else if t.Unknown? then Asked else Broken
    case AtNode(RequestReceived(id)) => if id == r then At(t, Heard) else t
    case AtNode(MoveBegan(id)) => if id == r then At(t, Underway) else t
    case AtNode(MoveEnded(id)) => if id == r then At(t, Done) else t
    case AtNode(ReadyNow(id)) => if id == r then At(t, Announced) else t
    case AtNode(_) => t
    case ReadyTaken(id) => if id == r then At(t, Fenced) else t
    case StateTaken => if t.Fenced? then Fresh else t
    case Returned(id) => if id == r && !t.Fresh? then Broken else t
  }

  function TripOf(r: int, log: seq<Entry>): Trip {
    if |log| == 0 then Unknown else Onward(TripOf(r, log[..|log| - 1]), r, log[|log| - 1])
  }

  lemma OneMore(r: int, log: seq<Entry>, e: Entry)
    ensures TripOf(r, log + [e]) == Onward(TripOf(r, log), r, e)
  {
    assert (log + [e])[..|log|] == log;
  }

  /** The stage at the node is never ahead of the journey. */
  predicate Abreast(s: Stage, t: Trip) {
    && !t.Broken?
    && (s.Received? ==> Rank(t) >= 2) && (s.Begun? ==> Rank(t) >= 3) && (s.Ended? ==> Rank(t) >= 4)
  }

  // ----- the invariant for one request -----

  predicate NodeSide(r: int, s: System) {
    && Honest(r, s.node.arm)
    && Abreast(StageOf(r, s.node.arm.topic.events), TripOf(r, s.log))
    && (Published(s, ReadyNow(r)) ==> Rank(TripOf(r, s.log)) >= 5)
  }

  predicate Ids(r: int, s: System) {
    && s.client.counter >= 0
    && (forall m :: m in s.sent && Mentions(m, r) ==> Rank(TripOf(r, s.log)) >= 1)
    && (r > s.client.counter ==> TripOf(r, s.log).Unknown?)
    && (r <= s.client.counter ==> !TripOf(r, s.log).Unknown?)
    && (!s.client.call.Idle? ==> 0 < s.client.call.id <= s.client.counter)
  }

  predicate ClientSide(r: int, s: System) {
    var c := s.client;
    && (c.pendingReady.Some? ==> !c.call.Idle? && c.call.id == c.pendingReady.value)
    && (!c.call.Idle? && c.call.id == r ==>
          if c.pendingReady.Some? then
            !c.ready && Rank(TripOf(r, s.log)) <= 6 && (c.fence.Some? <==> Rank(TripOf(r, s.log)) == 6)
          else c.ready && TripOf(r, s.log).Fresh?)
    && (c.fence.Some? ==> c.fence.value <= c.generation)
  }

  predicate Inv(r: int, s: System) { NodeSide(r, s) && Ids(r, s) && ClientSide(r, s) }

  // ----- the node's turn -----

  lemma OneNodeEvent(r: int, s: Stage, t: Trip, e: Event)
    requires r > 0 && Abreast(s, t) && !Later(s, r, e).Wrong?
    requires t.Unknown? ==> Later(s, r, e).Unseen?
    ensures Abreast(Later(s, r, e), Onward(t, r, AtNode(e)))
    ensures Rank(Onward(t, r, AtNode(e))) >= Rank(t)
    ensures Onward(t, r, AtNode(e)) == t || Rank(Onward(t, r, AtNode(e))) <= 5
    ensures t.Unknown? ==> Onward(t, r, AtNode(e)).Unknown?
    ensures e == ReadyNow(r) ==> Rank(Onward(t, r, AtNode(e))) >= 5
  {
  }

  lemma {:induction false} UnseenBefore(r: int, events: seq<Event>, m: nat)
    requires m <= |events| && StageOf(r, events).Unseen?
    ensures StageOf(r, events[..m]).Unseen?
    decreases |events|
  {
    if m == |events| {
      assert events[..m] == events;
    } else {
      var front := events[..|events| - 1];
      UnseenBefore(r, front, m);
      assert front[..m] == events[..m];
    }
  }

  /** The journey keeps pace with the events of a turn, one by one. */
  lemma {:induction false} TripKeepsPace(r: int, events: seq<Event>, n: nat, m: nat, log: seq<Entry>)
    requires r > 0 && n <= m <= |events| && !StageOf(r, events).Wrong?
    requires Abreast(StageOf(r, events[..n]), TripOf(r, log))
    requires TripOf(r, log).Unknown? ==> StageOf(r, events).Unseen?
    ensures var t := TripOf(r, log + Logged(events[n..m]));
      && Abreast(StageOf(r, events[..m]), t) && Rank(t) >= Rank(TripOf(r, log))
      && (TripOf(r, log).Unknown? ==> t.Unknown?) && (t == TripOf(r, log) || Rank(t) <= 5)
      && (ReadyNow(r) in events[n..m] ==> Rank(t) >= 5)
    decreases m
  {
    hide Rank, StageOf, TripOf, Abreast, Onward;
    if n == m {
      assert log + Logged(events[n..m]) == log;
    } else {
      TripKeepsPace(r, events, n, m - 1, log);
      var e := events[m - 1];
      StageStep(r, events, m);
      RightBefore(r, events, m);
      if TripOf(r, log).Unknown? {
        UnseenBefore(r, events, m);
      }
      var before := log + Logged(events[n..m - 1]);
      OneMore(r, before, AtNode(e));
      assert events[n..m] == events[n..m - 1] + [e];
      assert log + Logged(events[n..m]) == before + [AtNode(e)];
      RankOfUnknown(TripOf(r, log), TripOf(r, before));
      OneNodeEvent(r, StageOf(r, events[..m - 1]), TripOf(r, before), e);
    }
  }

  lemma RankOfUnknown(t: Trip, u: Trip)
    requires Rank(u) >= Rank(t)
    ensures u.Unknown? ==> t.Unknown?
  {
  }

  lemma StageStep(r: int, events: seq<Event>, m: nat)
    requires 1 <= m <= |events|
    ensures StageOf(r, events[..m]) == Later(StageOf(r, events[..m - 1]), r, events[m - 1])
  {
    assert events[..m][..m - 1] == events[..m - 1];
  }

  lemma NotAskedYet(r: int, s: System, inp: NodeInput)
    requires Possible(s, NodeTurn(inp)) && Ids(r, s) && TripOf(r, s.log).Unknown?
    ensures !Asks(inp.step, r)
  {
  }

  lemma HonestStage(r: int, a: Arm)
    requires Honest(r, a)
    ensures !StageOf(r, a.topic.events).Wrong?
  {
  }

  lemma UnknownIsUnseen(s: Stage, t: Trip)
    requires Abreast(s, t) && t.Unknown? && !s.Wrong?
    ensures s.Unseen?
  {
  }

  lemma KeepsFacts(r: int, asked: bool, a: Arm, b: Arm)
    requires Keeps(r, asked, a, b)
    ensures Honest(r, b) && a.topic.events <= b.topic.events
    ensures !asked && StageOf(r, a.topic.events).Unseen? ==> StageOf(r, b.topic.events).Unseen?
  {
  }

  lemma TurnKeepsInv(c: Config, r: int, s: System, inp: NodeInput)
    requires r > 0 && Inv(r, s) && Possible(s, NodeTurn(inp))
    ensures Inv(r, Next(c, s, NodeTurn(inp)))
  {
    hide Turn, Honest, StageOf, TripOf, Abreast, Keeps;
    var before, after := s.node.arm, Turn(c, s.node, inp).arm;
    var t := TripOf(r, s.log);
    if t.Unknown? {
      NotAskedYet(r, s, inp);
    }
    TurnKeeps(r, !t.Unknown?, c, s.node, inp);
    KeepsFacts(r, !t.Unknown?, before, after);
    HonestStage(r, before);
    HonestStage(r, after);
    if t.Unknown? {
      UnknownIsUnseen(StageOf(r, before.topic.events), t);
    }
    var n := |before.topic.events|;
    assert after.topic.events[..n] == before.topic.events;
    assert after.topic.events[..|after.topic.events|] == after.topic.events;
    TripKeepsPace(r, after.topic.events, n, |after.topic.events|, s.log);
    assert after.topic.events == before.topic.events + after.topic.events[n..];
    assert Added(s.node, Turn(c, s.node, inp)) == after.topic.events[n..|after.topic.events|];
    NotBroken(StageOf(r, after.topic.events), TripOf(r, Next(c, s, NodeTurn(inp)).log));
  }

  lemma NotBroken(s: Stage, t: Trip)
    requires Abreast(s, t)
    ensures !t.Broken?
  {
  }

  // ----- the client's steps -----

  lemma BeginKeepsInv(c: Config, r: int, s: System)
    requires r > 0 && Inv(r, s) && Possible(s, Begin)
    ensures Inv(r, Next(c, s, Begin))
  {
    hide Honest, StageOf, TripOf;
    OneMore(r, s.log, IdTaken(s.client.counter + 1));
  }

  lemma OtherKeepsInv(c: Config, r: int, s: System, msg: Message)
    requires r > 0 && Inv(r, s) && Possible(s, OtherCommand(msg))
    ensures Inv(r, Next(c, s, OtherCommand(msg)))
  {
    hide Honest, StageOf, TripOf;
    OneMore(r, s.log, IdTaken(s.client.counter + 1));
  }

  lemma SilentKeepsInv(c: Config, r: int, s: System, act: Action)
    requires r > 0 && Inv(r, s) && Possible(s, act)
    requires act.Enter? || act.Send? || act.ReceiveAck? || act.Acknowledged? || act.Fail?
    ensures Inv(r, Next(c, s, act))
  {
    hide Honest, StageOf, TripOf;
  }

  lemma ReadyKeepsInv(c: Config, r: int, s: System, id: int)
    requires r > 0 && Inv(r, s) && Possible(s, ReceiveReady(id))
    ensures Inv(r, Next(c, s, ReceiveReady(id)))
  {
    hide Honest, StageOf, TripOf;
    OneMore(r, s.log, ReadyTaken(id));
  }

  lemma StateKeepsInv(c: Config, r: int, s: System)
    requires r > 0 && Inv(r, s) && Possible(s, ReceiveState)
    ensures Inv(r, Next(c, s, ReceiveState))
  {
    hide Honest, StageOf, TripOf;
    OneMore(r, s.log, StateTaken);
  }

  lemma ReturnKeepsInv(c: Config, r: int, s: System)
    requires r > 0 && Inv(r, s) && Possible(s, EndCall)
    ensures Inv(r, Next(c, s, EndCall))
  {
    hide Honest, StageOf, TripOf;
    OneMore(r, s.log, Returned(s.client.call.id));
  }

  lemma StepKeepsInv(c: Config, r: int, s: System, act: Action)
    requires r > 0 && Inv(r, s) && Possible(s, act)
    ensures Inv(r, Next(c, s, act))
  {
    hide Inv, Next;
    match act
    case NodeTurn(inp) => TurnKeepsInv(c, r, s, inp);
    case Begin => BeginKeepsInv(c, r, s);
    case OtherCommand(msg) => OtherKeepsInv(c, r, s, msg);
    case ReceiveReady(id) => ReadyKeepsInv(c, r, s, id);
    case ReceiveState => StateKeepsInv(c, r, s);
    case EndCall => ReturnKeepsInv(c, r, s);
    case _ => SilentKeepsInv(c, r, s, act);
  }

  lemma {:induction false} RunKeepsInv(c: Config, r: int, states: seq<System>, acts: seq<Action>, k: nat)
    requires r > 0 && Execution(c, states, acts) && k < |states| && Start(states[0])
    ensures Inv(r, states[k])
  {
    hide Inv, Next, Possible;
    if k == 0 {
      StartIsFine(r, states[0]);
    } else {
      RunKeepsInv(c, r, states, acts, k - 1);
      StepKeepsInv(c, r, states[k - 1], acts[k - 1]);
    }
  }

  lemma StartIsFine(r: int, s: System)
    requires r > 0 && Start(s)
    ensures Inv(r, s)
  {
  }

  // ----- what a normal return means -----

  lemma {:induction false} NotBrokenBefore(r: int, log: seq<Entry>, m: nat)
    requires m <= |log| && !TripOf(r, log).Broken?
    ensures !TripOf(r, log[..m]).Broken?
    decreases |log|
  {
    if m == |log| {
      assert log[..m] == log;
    } else {
      var front := log[..|log| - 1];
      NotBrokenBefore(r, front, m);
      assert front[..m] == log[..m];
    }
  }

  /** The places in the log at which a journey reached its stations. */
  datatype Itinerary = Itinerary(asked: nat, heard: nat, begun: nat, ended: nat, announced: nat, taken: nat, sampled: nat)

  predicate Shows(r: int, log: seq<Entry>, t: Trip, p: Itinerary) {
    && (Rank(t) >= 1 ==> p.asked < |log| && log[p.asked] == IdTaken(r))
    && (Rank(t) >= 2 ==> p.asked < p.heard < |log| && log[p.heard] == AtNode(RequestReceived(r)))
    && (Rank(t) >= 3 ==> p.heard < p.begun < |log| && log[p.begun] == AtNode(MoveBegan(r)))
    && (Rank(t) >= 4 ==> p.begun < p.ended < |log| && log[p.ended] == AtNode(MoveEnded(r)))
    && (Rank(t) >= 5 ==> p.ended < p.announced < |log| && log[p.announced] == AtNode(ReadyNow(r)))
    && (Rank(t) >= 6 ==> p.announced < p.taken < |log| && log[p.taken] == ReadyTaken(r))
    && (Rank(t) >= 7 ==> p.taken < p.sampled < |log| && log[p.sampled] == StateTaken)
  }

  lemma ShowsLater(r: int, log: seq<Entry>, e: Entry, t: Trip, p: Itinerary)
    requires Shows(r, log, t, p)
    ensures Shows(r, log + [e], t, p)
  {
  }

  /** A new station is reached with the entry that belongs to it. */
  lemma NewStation(r: int, log: seq<Entry>, e: Entry, t: Trip, p: Itinerary) returns (q: Itinerary)
    requires Shows(r, log + [e], t, p) && Shows(r, log, t, p)
    requires !t.Broken? && !Onward(t, r, e).Broken? && Rank(Onward(t, r, e)) > Rank(t)
    ensures Shows(r, log + [e], Onward(t, r, e), q)
  {
    var last: nat := |log|;
    q := match Onward(t, r, e)
      case Asked => p.(asked := last)
      case Heard => p.(heard := last)
      case Underway => p.(begun := last)
      case Done => p.(ended := last)
      case Announced => p.(announced := last)
      case Fenced => p.(taken := last)
      case _ => p.(sampled := last);
  }

  lemma NoNewStation(r: int, t: Trip, e: Entry)
    requires !t.Broken? && !Onward(t, r, e).Broken? && Rank(Onward(t, r, e)) <= Rank(t)
    ensures Onward(t, r, e) == t
  {
  }

  lemma {:induction false} TripShows(r: int, log: seq<Entry>) returns (p: Itinerary)
    requires !TripOf(r, log).Broken?
    ensures Shows(r, log, TripOf(r, log), p)
  {
    hide Shows, Onward, Rank;
    if |log| == 0 {
      p := Itinerary(0, 0, 0, 0, 0, 0, 0);
      NothingShown(r, p);
    } else {
      var front, e := log[..|log| - 1], log[|log| - 1];
      assert front + [e] == log;
      NotBrokenBefore(r, log, |front|);
      p := TripShows(r, front);
      var t := TripOf(r, front);
      ShowsLater(r, front, e, t, p);
      if Rank(Onward(t, r, e)) > Rank(t) {
        p := NewStation(r, front, e, t, p);
      } else {
        NoNewStation(r, t, e);
      }
    }
  }

  lemma NothingShown(r: int, p: Itinerary)
    ensures Shows(r, [], Unknown, p)
  {
  }

  /** The theorem: `move_to_ready` returns normally only if, after its id was taken, the node
      received exactly this request, began its move, ended it and announced it, the client then
      took a READY with this id, and after that a state sample.  READY messages without an id, or
      with an older one, never suffice, and neither loss, duplication, delay nor reordering of
      messages changes this. */
  lemma ReturnIsFenced(c: Config, states: seq<System>, acts: seq<Action>, k: nat) returns (p: Itinerary)
    requires Execution(c, states, acts) && Start(states[0]) && k < |acts| && acts[k] == EndCall
    ensures states[k].client.call.Waiting?
    ensures var r, log := states[k].client.call.id, states[k].log;
      && r > 0 && p.asked < p.heard < p.begun < p.ended < p.announced < p.taken < p.sampled < |log|
      && log[p.asked] == IdTaken(r)
      && log[p.heard] == AtNode(RequestReceived(r)) && log[p.begun] == AtNode(MoveBegan(r))
      && log[p.ended] == AtNode(MoveEnded(r)) && log[p.announced] == AtNode(ReadyNow(r))
      && log[p.taken] == ReadyTaken(r) && log[p.sampled] == StateTaken
  {
    hide Next, TripOf, Honest;
    RunKeepsInv(c, 1, states, acts, k);
    var r := states[k].client.call.id;
    RunKeepsInv(c, r, states, acts, k);
    p := TripShows(r, states[k].log);
  }
}
