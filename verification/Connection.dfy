/** The connection of an arm and the generation that identifies it: what `_Arm.connect` and
    `close` do to them, and what a captured generation proves later. */
module Connection {

  /** `capable`: the handshake of the current connection is known.  `alive`: the native backend
      reports itself connected. */
  datatype Link = Link(capable: bool, alive: bool, generation: nat)

  predicate Connected(l: Link) { l.capable && l.alive }

  function AfterConnect(l: Link, ok: bool): Link {
    if Connected(l) then l
    else if ok then Link(true, true, l.generation + 1)
    else Link(false, false, l.generation)
  }

  function AfterClose(l: Link): Link { Link(false, false, l.generation + 1) }

  /** The backend dies by itself. */
  function AfterLoss(l: Link): Link { l.(alive := false) }

  class ArmLink {
    var capable: bool
    var alive: bool
    var generation: nat

    constructor ()
      ensures View() == Link(false, false, 0)
    {
      capable, alive, generation := false, false, 0;
    }

    function View(): Link
      reads this
    {
      Link(capable, alive, generation)
    }

    /** `ok`: whether the backend connects; when it does not it is closed again. */
    method Connect(ok: bool)
      modifies this
      ensures View() == AfterConnect(old(View()), ok)
    {
      if !(capable && alive) {
        capable := false;
        if ok {
          capable, alive := true, true;
          generation := generation + 1;
        } else {
          alive := false;
        }
      }
    }

    /** Whether or not the backend raises, the connection is over. */
    method Close()
      modifies this
      ensures View() == AfterClose(old(View()))
    {
      alive := false;
      capable := false;
      generation := generation + 1;
    }

    /** The generation of the connection, unless there is none. */
    method CaptureConnectionGeneration() returns (ok: bool, captured: nat)
      ensures ok == Connected(View()) && captured == View().generation
    {
      ok, captured := capable && alive, generation;
    }

    method AssertConnectionGeneration(expected: nat) returns (ok: bool)
      ensures ok == (Connected(View()) && View().generation == expected)
    {
      ok := !(generation != expected || !capable || !alive);
    }
  }

  datatype Action = Connecting(ok: bool) | Closing | Losing

  function Next(l: Link, a: Action): Link {
    match a
    case Connecting(ok) => AfterConnect(l, ok)
    case Closing => AfterClose(l)
    case Losing => AfterLoss(l)
  }

  predicate History(links: seq<Link>, acts: seq<Action>) {
    |links| == |acts| + 1 && forall k :: 0 <= k < |acts| ==> links[k + 1] == Next(links[k], acts[k])
  }

  /** Generations only grow, and stay the same only within one connection and its aftermath. */
  lemma {:induction false} GenerationsGrow(links: seq<Link>, acts: seq<Action>, i: nat, j: nat)
    requires History(links, acts) && i <= j < |links|
    ensures links[i].generation <= links[j].generation
    ensures links[i].generation == links[j].generation && !Connected(links[i]) ==> !Connected(links[j])
  {
    if i < j {
      GenerationsGrow(links, acts, i, j - 1);
      assert links[j - 1 + 1] == Next(links[j - 1], acts[j - 1]);
    }
  }

  /** A generation captured at `i` that is still current at `j` shows that the arm has been on one
      and the same connection all the time in between. */
  lemma SameConnectionThroughout(links: seq<Link>, acts: seq<Action>, i: nat, j: nat, k: nat)
    requires History(links, acts) && i <= k <= j < |links|
    requires Connected(links[i]) && Connected(links[j]) && links[j].generation == links[i].generation
    ensures Connected(links[k]) && links[k].generation == links[i].generation
    ensures k < j ==> !acts[k].Closing? && !acts[k].Losing?
  {
    GenerationsGrow(links, acts, i, k);
    GenerationsGrow(links, acts, k, j);
    if k < j {
      assert links[k + 1] == Next(links[k], acts[k]);
      GenerationsGrow(links, acts, k + 1, j);
    }
  }

  /** Since action `k` the arm has been connected. */
  predicate ConnectedSince(acts: seq<Action>, k: nat, m: nat) {
    k < m <= |acts| && acts[k] == Connecting(true) && forall j :: k < j < m ==> !acts[j].Closing? && !acts[j].Losing?
  }

  /** An arm is connected exactly if it has been connected successfully and has been neither closed nor
      lost since; a connect that fails in between finds it connected and changes nothing. */
  lemma {:induction false} ConnectedIff(links: seq<Link>, acts: seq<Action>, m: nat)
    requires History(links, acts) && m < |links| && !Connected(links[0])
    ensures Connected(links[m]) <==> exists k: nat :: ConnectedSince(acts, k, m)
  {
    if m > 0 {
      var p: nat := m - 1;
      ConnectedIff(links, acts, p);
      assert links[p + 1] == Next(links[p], acts[p]);
      if k: nat :| ConnectedSince(acts, k, p) {
        assert !acts[p].Closing? && !acts[p].Losing? ==> ConnectedSince(acts, k, m);
      }
      if acts[p] == Connecting(true) {
        assert ConnectedSince(acts, p, m);
      }
      if k: nat :| ConnectedSince(acts, k, m) {
        assert k < p ==> ConnectedSince(acts, k, p);
      }
    }
  }

  /** A new generation begins with every new connection and with every close, so that what was captured
      before is never current again; and what is not connected any more has nothing left of the old
      connection once a connect has failed or the arm was closed. */
  lemma GenerationRetires(links: seq<Link>, acts: seq<Action>, k: nat, m: nat)
    requires History(links, acts) && k < m < |links|
    ensures links[k + 1].generation > links[k].generation <==>
      acts[k].Closing? || (acts[k] == Connecting(true) && !Connected(links[k]))
    ensures acts[k].Closing? || (acts[k] == Connecting(true) && !Connected(links[k])) ==>
      forall i :: 0 <= i <= k ==> links[i].generation < links[m].generation
    ensures acts[k].Closing? || (acts[k] == Connecting(false) && !Connected(links[k])) ==>
      !links[k + 1].capable && !links[k + 1].alive
  {
    assert links[k + 1] == Next(links[k], acts[k]);
    GenerationsGrow(links, acts, k + 1, m);
    forall i | 0 <= i <= k ensures links[i].generation <= links[k].generation {
      GenerationsGrow(links, acts, i, k);
    }
  }
}
