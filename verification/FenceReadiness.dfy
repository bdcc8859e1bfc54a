/** When the client is ready: exactly which messages make it so, over whole sessions. */
module FenceReadiness {
  import opened Fence
  import opened Device
  import opened ControlNode
  import opened FenceProtocol

  /** A message that makes the client ready: a READY, of whatever id, while no call waits for its own
      one; or a state sample after the READY that a call was waiting for. */
  predicate MakesReady(s: System, act: Action) {
    || (act.ReceiveReady? && s.client.pendingReady.None?)
    || (act.ReceiveState? && s.client.pendingReady.Some? && s.client.fence.Some?)
  }

  /** Since action `k` the client has been ready: that action made it so, and no call has begun after it. */
  ghost predicate ReadySince(states: seq<System>, acts: seq<Action>, k: nat, m: nat) {
    k < m <= |acts| && m <= |states| && MakesReady(states[k], acts[k]) && forall j :: k < j < m ==> !acts[j].Begin?
  }

  /** One action: readiness is lost by beginning a call and by nothing else. */
  lemma ReadyStep(c: Config, s: System, act: Action)
    requires Possible(s, act) && Inv(1, s)
    ensures Next(c, s, act).client.ready <==> MakesReady(s, act) || (s.client.ready && !act.Begin?)
  {
    hide NodeSide, Ids, Turn;
  }

  /** In every session the client is ready exactly if some message has made it so and no call has begun
      since.  In particular a READY that finds no request pending is enough, as at start-up. */
  lemma {:induction false} ReadyIff(c: Config, states: seq<System>, acts: seq<Action>, m: nat)
    requires Execution(c, states, acts) && Start(states[0]) && m < |states|
    ensures states[m].client.ready <==> exists k: nat :: ReadySince(states, acts, k, m)
  {
    hide Next, Possible, MakesReady, Inv;
    if m == 0 {
      NotReadyAtStart(states[0]);
    } else {
      ReadyIff(c, states, acts, m - 1);
      RunKeepsInv(c, 1, states, acts, m - 1);
      ReadyStep(c, states[m - 1], acts[m - 1]);
      if MakesReady(states[m - 1], acts[m - 1]) {
        assert ReadySince(states, acts, m - 1, m);
      }
      var p: nat := m - 1;
      if k: nat :| ReadySince(states, acts, k, p) {
        assert !acts[p].Begin? ==> ReadySince(states, acts, k, m);
      }
      if k: nat :| ReadySince(states, acts, k, m) {
        assert k < p ==> ReadySince(states, acts, k, p);
      }
    }
  }

  lemma NotReadyAtStart(s: System)
    requires Start(s)
    ensures !s.client.ready
  {
  }

  /** A call that waits may return exactly when its own READY has arrived after its move, and a state
      sample after that. */
  lemma ReturnsIff(c: Config, states: seq<System>, acts: seq<Action>, k: nat)
    requires Execution(c, states, acts) && Start(states[0]) && k < |states| && states[k].client.call.Waiting?
    ensures Possible(states[k], EndCall) <==> TripOf(states[k].client.call.id, states[k].log).Fresh?
  {
    hide Next, TripOf;
    RunKeepsInv(c, 1, states, acts, k);
    RunKeepsInv(c, states[k].client.call.id, states, acts, k);
  }

  // ----- acknowledgements -----

  ghost predicate AckReceived(acts: seq<Action>, n: nat, id: int, code: int) {
    exists i :: 0 <= i < n && i < |acts| && acts[i] == ReceiveAck(id, code)
  }

  /** Every acknowledgement the client knows of was received, and belongs to the call that waits for it;
      and no call waits for readiness without one that accepted its request. */
  ghost predicate Acknowledging(s: System, acts: seq<Action>, n: nat) {
    && (forall id :: id in s.client.acks ==> AckReceived(acts, n, id, s.client.acks[id]))
    && (s.client.call.Waiting? ==> AckReceived(acts, n, s.client.call.id, 0))
    && (forall id :: id in s.client.acks ==> s.client.call == Acking(id))
    && (s.client.call.Acking? <==> s.client.pendingAck.Some?)
    && (s.client.pendingAck.Some? ==> s.client.call == Acking(s.client.pendingAck.value))
  }

  lemma AckStep(c: Config, s: System, acts: seq<Action>, n: nat)
    requires n < |acts| && Possible(s, acts[n]) && Acknowledging(s, acts, n)
    ensures Acknowledging(Next(c, s, acts[n]), acts, n + 1)
  {
    hide Turn;
    forall id, code | AckReceived(acts, n, id, code) ensures AckReceived(acts, n + 1, id, code) {
    }
    if acts[n].ReceiveAck? {
      assert AckReceived(acts, n + 1, acts[n].id, acts[n].code);
    }
  }

  /** A call waits for readiness only if its own request has been accepted; a rejected one never does. */
  lemma {:induction false} WaitsOnlyIfAccepted(c: Config, states: seq<System>, acts: seq<Action>, k: nat)
    requires Execution(c, states, acts) && Start(states[0]) && k < |states|
    ensures Acknowledging(states[k], acts, k)
  {
    hide Next, Possible;
    if k > 0 {
      WaitsOnlyIfAccepted(c, states, acts, k - 1);
      AckStep(c, states[k - 1], acts, k - 1);
    }
  }
}
