/** `ArmSession`: the order in which a session blocks, disengages and closes when it ends, and
    connects, prepares and allows when it starts, whichever of these operations raise. */
module Session {
  import opened Wrappers

  datatype Arm = Leader(i: nat) | Follower(i: nat)

  datatype Event =
    | Blocked(pair: nat)
    | Disengaged(pair: nat)
    | Connected(arm: Arm)
    | Prepared(arm: Arm)   // a follower paused, a leader floating
    | Allowed(pair: nat)
    | Closed(arm: Arm)

  // ----- closing -----

  function Blocks(n: nat): (r: seq<Event>)
    ensures |r| == n && forall p :: 0 <= p < n ==> r[p] == Blocked(p)
  {
    seq(n, p requires 0 <= p < n => Blocked(p))
  }

  /** Pair after pair, up to the first that raises. */
  function Disengages(n: nat, raises: Event -> bool): (r: seq<Event>)
    ensures |r| <= n && forall p :: 0 <= p < |r| ==> r[p] == Disengaged(p)
    ensures forall p :: 0 <= p < |r| - 1 ==> !raises(Disengaged(p))
    ensures |r| < n ==> |r| > 0 && raises(Disengaged(|r| - 1))
  {
    if n == 0 then []
    else
      var r := Disengages(n - 1, raises);
      if |r| < n - 1 || (n > 1 && raises(Disengaged(n - 2))) then r else r + [Disengaged(n - 1)]
  }

  /** All leaders, last first, then all followers, last first. */
  function ArmsReversed(leaders: nat, followers: nat): (r: seq<Arm>)
    ensures |r| == leaders + followers
    ensures forall k :: 0 <= k < |r| ==>
      r[k] == if k < leaders then Leader(leaders - 1 - k) else Follower(leaders + followers - 1 - k)
  {
    seq(leaders + followers, k requires 0 <= k < leaders + followers =>
      if k < leaders then Leader(leaders - 1 - k) else Follower(leaders + followers - 1 - k))
  }

  function Closes(arms: seq<Arm>): (r: seq<Event>)
    ensures |r| == |arms| && forall k :: 0 <= k < |arms| ==> r[k] == Closed(arms[k])
  {
    seq(|arms|, k requires 0 <= k < |arms| => Closed(arms[k]))
  }

  function FirstRaising(events: seq<Event>, raises: Event -> bool): (e: Option<Event>)
    ensures e.None? <==> forall k :: 0 <= k < |events| ==> !raises(events[k])
    ensures e.Some? ==> exists k :: 0 <= k < |events| && events[k] == e.value && raises(e.value)
                                 && forall j :: 0 <= j < k ==> !raises(events[j])
  {
    if |events| == 0 then None
    else
      var e := FirstRaising(events[..|events| - 1], raises);
      var last := events[|events| - 1];
      if e.Some? then e else if raises(last) then Some(last) else None
  }

  /** The events that raise, in order. */
  function Raised(events: seq<Event>, raises: Event -> bool): seq<Event> {
    if |events| == 0 then []
    else
      var last := events[|events| - 1];
      Raised(events[..|events| - 1], raises) + if raises(last) then [last] else []
  }

  lemma RaisedMore(events: seq<Event>, e: Event, raises: Event -> bool)
    ensures Raised(events + [e], raises) == Raised(events, raises) + if raises(e) then [e] else []
  {
    assert (events + [e])[..|events|] == events;
  }

  lemma {:induction false} RaisedInBoth(a: seq<Event>, b: seq<Event>, raises: Event -> bool)
    ensures Raised(a + b, raises) == Raised(a, raises) + Raised(b, raises)
  {
    if |b| == 0 {
      assert a + b == a;
    } else {
      var front, last := b[..|b| - 1], b[|b| - 1];
      RaisedInBoth(a, front, raises);
      RaisedMore(a + front, last, raises);
      assert a + b == a + front + [last];
    }
  }

  lemma {:induction false} FirstOfRaised(events: seq<Event>, raises: Event -> bool)
    ensures FirstRaising(events, raises) ==
      if Raised(events, raises) == [] then None else Some(Raised(events, raises)[0])
  {
    if |events| > 0 {
      FirstOfRaised(events[..|events| - 1], raises);
    }
  }

  lemma FirstError(before: seq<Event>, closes: seq<Event>, raises: Event -> bool, failure: Option<Event>,
                   errors: seq<Event>)
    requires Raised(before, raises) == if failure.Some? then [failure.value] else []
    requires errors == (if failure.Some? then [failure.value] else []) + Raised(closes, raises)
    ensures FirstRaising(before + closes, raises) == if |errors| > 0 then Some(errors[0]) else None
  {
    hide Raised, FirstRaising;
    RaisedInBoth(before, closes, raises);
    FirstOfRaised(before + closes, raises);
  }

  function CloseTrace(pairs: nat, leaders: nat, followers: nat, raises: Event -> bool): seq<Event> {
    Blocks(pairs) + Disengages(pairs, raises) + Closes(ArmsReversed(leaders, followers))
  }

  lemma TraceOfClose(before: seq<Event>, pairs: nat, leaders: nat, followers: nat, raises: Event -> bool)
    ensures before + Blocks(pairs) + Disengages(pairs, raises) + Closes(ArmsReversed(leaders, followers))
      == before + CloseTrace(pairs, leaders, followers, raises)
  {
    hide Blocks, Disengages, Closes, ArmsReversed;
  }

  /** Every arm gets its close attempt, exactly one. */
  lemma EveryArmIsClosed(pairs: nat, leaders: nat, followers: nat, raises: Event -> bool, arm: Arm)
    requires match arm case Leader(i) => i < leaders case Follower(i) => i < followers
    ensures var t := CloseTrace(pairs, leaders, followers, raises);
      exists k :: 0 <= k < |t| && t[k] == Closed(arm) && forall j :: 0 <= j < |t| && t[j] == Closed(arm) ==> j == k
  {
    var t := CloseTrace(pairs, leaders, followers, raises);
    var before := pairs + |Disengages(pairs, raises)|;
    var k := before + match arm case Leader(i) => leaders - 1 - i case Follower(i) => leaders + followers - 1 - i;
    assert t[k] == Closed(arm);
    forall j | 0 <= j < |t| && t[j] == Closed(arm) ensures j == k {
      assert j >= before;
    }
  }

  /** All pairs are blocked before the first disengage, and no arm is closed before the last. */
  lemma CloseKeepsOrder(pairs: nat, leaders: nat, followers: nat, raises: Event -> bool, i: nat, j: nat)
    requires var t := CloseTrace(pairs, leaders, followers, raises); i < |t| && j < |t|
    ensures var t := CloseTrace(pairs, leaders, followers, raises);
      && (t[i].Blocked? && !t[j].Blocked? ==> i < j)
      && (t[i].Disengaged? && t[j].Closed? ==> i < j)
      && (t[j].Closed? ==> forall p :: 0 <= p < pairs ==> Blocked(p) in t[..j])
  {
    var t := CloseTrace(pairs, leaders, followers, raises);
    forall p | 0 <= p < pairs && t[j].Closed? ensures Blocked(p) in t[..j] {
      assert t[..j][p] == Blocked(p);
    }
  }

  /** Every pair is disengaged exactly when none but the last raises: the first that does makes
      the session skip the others. */
  lemma EveryPairIsDisengagedIff(pairs: nat, leaders: nat, followers: nat, raises: Event -> bool)
    ensures var t := CloseTrace(pairs, leaders, followers, raises);
      (forall p :: 0 <= p < pairs ==> Disengaged(p) in t)
      <==> (forall p :: 0 <= p < pairs - 1 ==> !raises(Disengaged(p)))
  {
    var d := Disengages(pairs, raises);
    var t := CloseTrace(pairs, leaders, followers, raises);
    if forall p :: 0 <= p < pairs - 1 ==> !raises(Disengaged(p)) {
      assert |d| == pairs;
      forall p | 0 <= p < pairs ensures Disengaged(p) in t {
        assert t[pairs + p] == Disengaged(p);
      }
    } else {
      assert |d| < pairs;
      forall k | 0 <= k < |t| ensures t[k] != Disengaged(pairs - 1) {
        if pairs <= k < pairs + |d| {
          assert t[k] == d[k - pairs];
        }
      }
    }
  }

  /** A pair is disengaged if none before it raises. */
  lemma IsDisengaged(n: nat, raises: Event -> bool, p: nat)
    requires p < n && forall q :: 0 <= q < p ==> !raises(Disengaged(q))
    ensures |Disengages(n, raises)| > p && Disengages(n, raises)[p] == Disengaged(p)
  {
  }

  // ----- connecting -----

  /** Where the connecting of some arms has come to: what happened, which arms are new, and the
      operation that raised. */
  datatype Progress = Progress(trace: seq<Event>, newly: seq<Arm>, error: Option<Event>)

  function ConnectNext(p: Progress, arm: Arm, connected: set<Arm>, raises: Event -> bool): Progress {
    if p.error.Some? || arm in connected || arm in p.newly then p
    else if raises(Connected(arm)) then p.(trace := p.trace + [Connected(arm)], error := Some(Connected(arm)))
    else
      Progress(p.trace + [Connected(arm)] + [Prepared(arm)], p.newly + [arm],
               if raises(Prepared(arm)) then Some(Prepared(arm)) else None)
  }

  function ConnectUpTo(arms: seq<Arm>, connected: set<Arm>, raises: Event -> bool, n: nat): Progress
    requires n <= |arms|
  {
    if n == 0 then Progress([], [], None)
    else ConnectNext(ConnectUpTo(arms, connected, raises, n - 1), arms[n - 1], connected, raises)
  }

  function Reversed(arms: seq<Arm>): (r: seq<Arm>)
    ensures |r| == |arms| && forall k :: 0 <= k < |arms| ==> r[k] == arms[|arms| - 1 - k]
  {
    seq(|arms|, k requires 0 <= k < |arms| => arms[|arms| - 1 - k])
  }

  function Allows(n: nat): (r: seq<Event>)
    ensures |r| == n && forall p :: 0 <= p < n ==> r[p] == Allowed(p)
  {
    seq(n, p requires 0 <= p < n => Allowed(p))
  }

  /** Followers are connected before leaders. */
  function AllArms(leaders: nat, followers: nat): (r: seq<Arm>)
    ensures |r| == leaders + followers
    ensures forall k :: 0 <= k < |r| ==> r[k] == if k < followers then Follower(k) else Leader(k - followers)
  {
    seq(leaders + followers, k requires 0 <= k < leaders + followers =>
      if k < followers then Follower(k) else Leader(k - followers))
  }

  /** What connecting leads to: the gate opens for every pair, or every arm this call has opened
      is closed again, last first. */
  function ConnectTrace(p: Progress, pairs: nat): seq<Event> {
    p.trace + if p.error.None? then Allows(pairs) else Closes(Reversed(p.newly))
  }

  predicate Opened(p: Progress, arm: Arm) {
    exists i, j :: 0 <= i < j < |p.trace| && p.trace[i] == Connected(arm) && p.trace[j] == Prepared(arm)
  }

  lemma ConnectNextShape(p: Progress, arm: Arm, connected: set<Arm>, raises: Event -> bool)
    requires p.error.None? ==> forall a :: a in p.newly ==> Opened(p, a)
    ensures var q := ConnectNext(p, arm, connected, raises);
      && (q.error.None? ==> p.error.None? && (forall a :: a in q.newly ==> Opened(q, a))
                            && (arm in connected || arm in q.newly))
      && (forall a :: a in p.newly ==> a in q.newly)
      && (forall a :: a in q.newly ==> a in p.newly || (a == arm && arm !in connected))
  {
    var q := ConnectNext(p, arm, connected, raises);
    if q.error.None? {
      forall a | a in q.newly ensures Opened(q, a) {
        if a in p.newly {
          var i, j :| 0 <= i < j < |p.trace| && p.trace[i] == Connected(a) && p.trace[j] == Prepared(a);
          assert q.trace[i] == Connected(a) && q.trace[j] == Prepared(a);
        } else {
          var n := |p.trace|;
          assert q.trace[n] == Connected(a) && q.trace[n + 1] == Prepared(a);
        }
      }
    }
  }

  /** As long as nothing raises, every arm so far was connected before or has been connected and
      prepared now. */
  lemma {:induction false} ConnectedSoFar(arms: seq<Arm>, connected: set<Arm>, raises: Event -> bool, n: nat)
    requires n <= |arms|
    ensures var p := ConnectUpTo(arms, connected, raises, n);
      && (p.error.None? ==>
            && (forall a :: a in p.newly ==> Opened(p, a))
            && (forall k :: 0 <= k < n ==> arms[k] in connected || arms[k] in p.newly))
      && (forall a :: a in p.newly ==> a !in connected)
  {
    hide ConnectNext;
    if n > 0 {
      ConnectedSoFar(arms, connected, raises, n - 1);
      ConnectNextShape(ConnectUpTo(arms, connected, raises, n - 1), arms[n - 1], connected, raises);
    }
  }

  /** No connecting and no preparing counts as allowing or closing. */
  lemma {:induction false} OnlyConnects(arms: seq<Arm>, connected: set<Arm>, raises: Event -> bool, n: nat)
    requires n <= |arms|
    ensures forall k :: 0 <= k < |ConnectUpTo(arms, connected, raises, n).trace| ==>
      var e := ConnectUpTo(arms, connected, raises, n).trace[k]; e.Connected? || e.Prepared?
  {
    if n > 0 {
      OnlyConnects(arms, connected, raises, n - 1);
    }
  }

  /** Connecting stops at the first operation that raises, and its error is that one; the arms to be closed
      then are those whose connecting did not raise, also when their preparing did. */
  lemma {:induction false} ConnectStopsAtError(arms: seq<Arm>, connected: set<Arm>, raises: Event -> bool, n: nat)
    requires n <= |arms|
    ensures var p := ConnectUpTo(arms, connected, raises, n);
      && p.error == FirstRaising(p.trace, raises)
      && (p.error.Some? ==> |p.trace| > 0 && p.trace[|p.trace| - 1] == p.error.value)
      && forall a :: a in p.newly <==> Connected(a) in p.trace && !raises(Connected(a))
  {
    hide ConnectNext;
    if n > 0 {
      ConnectStopsAtError(arms, connected, raises, n - 1);
      OnlyConnects(arms, connected, raises, n - 1);
      NextError(ConnectUpTo(arms, connected, raises, n - 1), arms[n - 1], connected, raises);
    }
  }

  lemma NextError(p: Progress, arm: Arm, connected: set<Arm>, raises: Event -> bool)
    requires p.error == FirstRaising(p.trace, raises)
    requires p.error.Some? ==> |p.trace| > 0 && p.trace[|p.trace| - 1] == p.error.value
    requires forall a :: a in p.newly <==> Connected(a) in p.trace && !raises(Connected(a))
    ensures var q := ConnectNext(p, arm, connected, raises);
      && q.error == FirstRaising(q.trace, raises)
      && (q.error.Some? ==> |q.trace| > 0 && q.trace[|q.trace| - 1] == q.error.value)
      && forall a :: a in q.newly <==> Connected(a) in q.trace && !raises(Connected(a))
  {
    var q := ConnectNext(p, arm, connected, raises);
    FirstRaisingMore(p.trace, Connected(arm), raises);
    FirstRaisingMore(p.trace + [Connected(arm)], Prepared(arm), raises);
  }

  lemma FirstRaisingMore(events: seq<Event>, e: Event, raises: Event -> bool)
    ensures FirstRaising(events + [e], raises)
      == if FirstRaising(events, raises).Some? then FirstRaising(events, raises)
         else if raises(e) then Some(e) else None
  {
    assert (events + [e])[..|events|] == events;
  }

  /** All or nothing: a pair is allowed to engage only after every arm is connected, the new ones
      prepared; otherwise no pair is, and exactly the arms opened by this call are closed. */
  lemma ConnectIsAllOrNothing(arms: seq<Arm>, pairs: nat, connected: set<Arm>, raises: Event -> bool)
    ensures var p := ConnectUpTo(arms, connected, raises, |arms|); var t := ConnectTrace(p, pairs);
      && (forall q :: 0 <= q < pairs ==> (Allowed(q) in t <==> p.error.None?))
      && (p.error.None? ==> forall k :: 0 <= k < |arms| ==> arms[k] in connected || Opened(p, arms[k]))
      && (forall a :: Closed(a) in t <==> p.error.Some? && a in p.newly)
      && (forall a :: a in p.newly ==> a !in connected)
  {
    var p := ConnectUpTo(arms, connected, raises, |arms|);
    var t := ConnectTrace(p, pairs);
    ConnectedSoFar(arms, connected, raises, |arms|);
    OnlyConnects(arms, connected, raises, |arms|);
    var n := |p.trace|;
    forall q | 0 <= q < pairs ensures Allowed(q) in t <==> p.error.None? {
      if p.error.None? {
        assert t[n + q] == Allowed(q);
      }
    }
    forall a ensures Closed(a) in t <==> p.error.Some? && a in p.newly {
      if p.error.Some? && a in p.newly {
        var k :| 0 <= k < |p.newly| && p.newly[k] == a;
        assert t[n + |p.newly| - 1 - k] == Closed(a);
      }
    }
  }

  // ----- the session object -----

  /** `trace` records the operations on the arms and pairs, including those that raise. */
  class ArmSession {
    const leaders: nat
    const followers: nat
    const pairs: nat
    var connected: set<Arm>
    var trace: seq<Event>

    constructor (l: nat, f: nat, p: nat)
      ensures leaders == l && followers == f && pairs == p && connected == {} && trace == []
    {
      leaders, followers, pairs, connected, trace := l, f, p, {}, [];
    }

    /** Closing an arm retires it even when it raises; `errors` are the closings that raise. */
    method CloseAll(arms: seq<Arm>, raises: Event -> bool) returns (errors: seq<Event>)
      modifies this
      ensures trace == old(trace) + Closes(arms)
      ensures connected == old(connected) - (set a | a in arms)
      ensures errors == Raised(Closes(arms), raises)
    {
      errors := [];
      for k := 0 to |arms|
        invariant trace == old(trace) + Closes(arms)[..k]
        invariant forall a :: a in connected <==> a in old(connected) && a !in arms[..k]
        invariant errors == Raised(Closes(arms)[..k], raises)
      {
        var closed := Closed(arms[k]);
        trace := trace + [closed];
        connected := connected - {arms[k]};
        RaisedMore(Closes(arms)[..k], closed, raises);
        if raises(closed) {
          errors := errors + [closed];
        }
        assert Closes(arms)[..k + 1] == Closes(arms)[..k] + [closed];
        assert arms[..k + 1] == arms[..k] + [arms[k]];
      }
      assert Closes(arms)[..|arms|] == Closes(arms) && arms[..|arms|] == arms;
    }

    method BlockAll()
      modifies this`trace
      ensures trace == old(trace) + Blocks(pairs)
    {
      for p := 0 to pairs
        invariant trace == old(trace) + Blocks(p)
      {
        trace := trace + [Blocked(p)];
        assert Blocks(p + 1) == Blocks(p) + [Blocked(p)];
      }
    }

    /** `disengage_all`: the first pair that raises ends it. */
    method DisengageAll(raises: Event -> bool) returns (failure: Option<Event>)
      modifies this`trace
      ensures trace == old(trace) + Disengages(pairs, raises)
      ensures Raised(Disengages(pairs, raises), raises) == if failure.Some? then [failure.value] else []
    {
      hide Disengages, Raised;
      var done := 0;
      failure := None;
      NoneDisengaged(raises);
      while done < pairs && failure.None?
        invariant done <= pairs && |Disengages(done, raises)| == done
        invariant failure.Some? == (done > 0 && raises(Disengaged(done - 1)))
        invariant trace == old(trace) + Disengages(done, raises)
        invariant Raised(Disengages(done, raises), raises) == if failure.Some? then [failure.value] else []
      {
        OneMoreDisengaged(done, raises);
        trace := trace + [Disengaged(done)];
        if raises(Disengaged(done)) {
          failure := Some(Disengaged(done));
        }
        done := done + 1;
      }
      DisengagesStop(pairs, raises, done);
    }

    /** The first error resurfaces after every arm has had its close attempt. */
    method Close(raises: Event -> bool) returns (error: Option<Event>)
      modifies this
      ensures trace == old(trace) + CloseTrace(pairs, leaders, followers, raises)
      ensures error == FirstRaising(Disengages(pairs, raises) + Closes(ArmsReversed(leaders, followers)), raises)
      ensures connected == old(connected) - (set a | a in ArmsReversed(leaders, followers))
    {
      hide FirstRaising, Disengages, ArmsReversed, Raised, Blocks, Closes, CloseTrace;
      var arms := ArmsReversed(leaders, followers);
      var errors: seq<Event> := [];
      BlockAll();
      var failure := DisengageAll(raises);
      if failure.Some? {
        errors := errors + [failure.value];
      }
      var closing := CloseAll(arms, raises);
      errors := errors + closing;
      FirstError(Disengages(pairs, raises), Closes(arms), raises, failure, errors);
      TraceOfClose(old(trace), pairs, leaders, followers, raises);
      error := if |errors| > 0 then Some(errors[0]) else None;
    }

    /** Connecting and preparing the arms that are not connected, until something raises. */
    method ConnectArms(arms: seq<Arm>, raises: Event -> bool) returns (newly: seq<Arm>, error: Option<Event>)
      modifies this
      ensures var p := ConnectUpTo(arms, old(connected), raises, |arms|);
        newly == p.newly && error == p.error && trace == old(trace) + p.trace
      ensures connected == old(connected) + (set a | a in newly)
    {
      newly, error := [], None;
      ghost var before := connected;
      var k := 0;
      while k < |arms| && error.None?
        invariant k <= |arms|
        invariant var p := ConnectUpTo(arms, before, raises, k);
          newly == p.newly && error == p.error && trace == old(trace) + p.trace
        invariant connected == before + (set a | a in newly)
      {
        var arm := arms[k];
        if arm !in connected {
          trace := trace + [Connected(arm)];
          if raises(Connected(arm)) {
            error := Some(Connected(arm));
          } else {
            connected := connected + {arm};
            newly := newly + [arm];
            trace := trace + [Prepared(arm)];
            if raises(Prepared(arm)) {
              error := Some(Prepared(arm));
            }
          }
        }
        k := k + 1;
      }
      NothingMore(arms, before, raises, k, |arms|);
    }

    method AllowAll()
      modifies this`trace
      ensures trace == old(trace) + Allows(pairs)
    {
      for p := 0 to pairs
        invariant trace == old(trace) + Allows(p)
      {
        trace := trace + [Allowed(p)];
        assert Allows(p + 1) == Allows(p) + [Allowed(p)];
      }
    }

    /** `connect`, from the point at which the stale pairs have been retired. */
    method Connect(raises: Event -> bool) returns (error: Option<Event>)
      modifies this
      ensures var p := ConnectUpTo(AllArms(leaders, followers), old(connected), raises, leaders + followers);
        && trace == old(trace) + ConnectTrace(p, pairs) && error == p.error
        && connected == (if error.None? then old(connected) + (set a | a in p.newly) else old(connected))
    {
      hide ConnectNext, ConnectUpTo, Raised;
      ghost var p := ConnectUpTo(AllArms(leaders, followers), connected, raises, leaders + followers);
      var newly;
      newly, error := ConnectArms(AllArms(leaders, followers), raises);
      if error.None? {
        AllowAll();
      } else {
        var _ := CloseAll(Reversed(newly), raises);
        ConnectedSoFar(AllArms(leaders, followers), old(connected), raises, leaders + followers);
        SameArms(newly);
      }
    }
  }

  /** After an error nothing more is connected. */
  lemma {:induction false} NothingMore(arms: seq<Arm>, connected: set<Arm>, raises: Event -> bool, k: nat, n: nat)
    requires k <= n <= |arms| && (k == n || ConnectUpTo(arms, connected, raises, k).error.Some?)
    ensures ConnectUpTo(arms, connected, raises, n) == ConnectUpTo(arms, connected, raises, k)
  {
    if k < n {
      NothingMore(arms, connected, raises, k, n - 1);
    }
  }

  lemma SameArms(arms: seq<Arm>)
    ensures forall a :: a in Reversed(arms) <==> a in arms
  {
    forall a | a in arms ensures a in Reversed(arms) {
      var k :| 0 <= k < |arms| && arms[k] == a;
      assert Reversed(arms)[|arms| - 1 - k] == a;
    }
  }

  lemma NoneDisengaged(raises: Event -> bool)
    ensures Disengages(0, raises) == [] && Raised([], raises) == []
  {
  }

  lemma OneMoreDisengaged(done: nat, raises: Event -> bool)
    requires |Disengages(done, raises)| == done && (done > 0 ==> !raises(Disengaged(done - 1)))
    ensures Disengages(done + 1, raises) == Disengages(done, raises) + [Disengaged(done)]
    ensures Raised(Disengages(done + 1, raises), raises) ==
      Raised(Disengages(done, raises), raises) + if raises(Disengaged(done)) then [Disengaged(done)] else []
  {
    RaisedMore(Disengages(done, raises), Disengaged(done), raises);
  }

  lemma {:induction false} DisengagesStop(n: nat, raises: Event -> bool, done: nat)
    requires done <= n && |Disengages(done, raises)| == done
    requires done == n || (done > 0 && raises(Disengaged(done - 1)))
    ensures Disengages(n, raises) == Disengages(done, raises)
  {
    if done < n {
      DisengagesStop(n - 1, raises, done);
    }
  }
}
