/** Closing a session and the concurrent engagement protocol together: when a session closes its
    first arm, no pair is engaged, and none can become engaged. */
module SessionSafety {
  import opened Teleop
  import S = Session
  import TeleopWitness

  /** The threads of a pair that the closing session runs on: the one that blocks it, with the
      gate it has shut, and the one that disengages it afterwards. */
  datatype Closer = Closer(blocker: Thread, gate: nat, disengager: Thread, seen: nat)

  /** The history of pair `p` goes along with the trace of the session: event `k` of the trace
      has happened in state `at[k]`.  Nobody allows engagement again: closing and connecting
      exclude each other. */
  ghost predicate GoesAlong(states: seq<State>, at: seq<nat>, t: seq<S.Event>, p: nat, w: Closer) {
    && Behavior(states) && |at| == |t|
    && (forall k :: 0 <= k < |t| ==> at[k] < |states|)
    && (forall i, k :: 0 <= i <= k < |t| ==> at[i] <= at[k])
    && (forall k :: 0 <= k < |t| && t[k] == S.Blocked(p) ==>
          && w.blocker in states[at[k]].threads && states[at[k]].threads[w.blocker] == Blocked(w.gate)
          && w.disengager !in states[at[k]].threads)
    && (forall k :: 0 <= k < |t| && t[k] == S.Disengaged(p) ==>
          w.disengager in states[at[k]].threads && states[at[k]].threads[w.disengager] == Disengaged(w.seen))
  }

  /** If no pair before it raises when it is disengaged, then from the first close on the pair is
      disengaged for as long as its gate stays shut. */
  lemma ClosingFindsPairsDisengaged(states: seq<State>, at: seq<nat>, pairs: nat, leaders: nat, followers: nat,
                                    raises: S.Event -> bool, p: nat, w: Closer, c: nat, m: nat)
    requires p < pairs && forall q :: 0 <= q < p ==> !raises(S.Disengaged(q))
    requires GoesAlong(states, at, S.CloseTrace(pairs, leaders, followers, raises), p, w)
    requires c < |at| && S.CloseTrace(pairs, leaders, followers, raises)[c].Closed?
    requires at[c] <= m < |states| && states[m].gate == w.gate
    ensures !states[m].pair.engaged
  {
    hide Behavior;
    var t := S.CloseTrace(pairs, leaders, followers, raises);
    assert t[p] == S.Blocked(p);
    S.IsDisengaged(pairs, raises, p);
    assert t[pairs + p] == S.Disengaged(p);
    S.CloseKeepsOrder(pairs, leaders, followers, raises, pairs + p, c);
    BlockedThenDisengaged(states, at[p], at[pairs + p], m, w.blocker, w.gate, w.disengager, w.seen);
  }

  /** There are such histories: a session with one engaged pair closes. */
  lemma EngagedPairIsClosed() returns (states: seq<State>, at: seq<nat>, w: Closer, engaged: nat)
    ensures GoesAlong(states, at, S.CloseTrace(1, 1, 1, (e: S.Event) => false), 0, w)
    ensures engaged < at[0] && states[engaged].pair.engaged
  {
    hide Behavior;
    var blocked, gate, seen;
    states, engaged, blocked, gate, seen := TeleopWitness.EngagedThenClosed();
    var end := |states| - 1;
    at := [blocked, end, end, end];
    w := Closer(1, gate, 2, seen);
    var t := S.CloseTrace(1, 1, 1, (e: S.Event) => false);
    assert |S.Disengages(1, (e: S.Event) => false)| == 1;
    assert |t| == 4 && t[0] == S.Blocked(0) && t[1] == S.Disengaged(0) && t[2].Closed? && t[3].Closed?;
  }
}
