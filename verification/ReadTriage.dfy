/** `DeviceArm::read_hardware_values`: reading all joints of an arm and deciding what the
    failures mean, against a specification that mentions no loop and no order of assignments. */
module ReadTriage {
  import opened Wrappers
  import opened Control

  /** What one reading finds.  `dead` is the driver's set of silent servos when the bulk read
      fails; `foreign` are servos of an effector that has not been started yet; `codes` and `poses`
      are what each joint answers if it is read. */
  datatype Reading = Reading(bulk: ReturnCode, dead: set<int>, foreign: set<int>, codes: seq<ReturnCode>,
                             poses: nat -> Option<real>)

  /** The result of a reading: the code of the call and the servos to leave alone from now on. */
  datatype Verdict = Verdict(code: ReturnCode, failed: set<int>)

  // ----- specification -----

  function Dead(r: Reading): set<int> {
    if r.bulk.Success? then {} else r.dead - r.foreign
  }

  predicate Excluded(servo: int, failed: set<int>) { servo >= 0 && servo in failed }

  /** Codes that end the reading at once when partial failure is not tolerated. */
  predicate Hard(c: ReturnCode) { c.SafeModeSig? || c.SafeModeTemperature? || c.HardwareFault? }

  /** Codes after which the servo can no longer be commanded. */
  predicate Unreachable(c: ReturnCode) { c.SafeModeSig? || c.HardwareFault? }

  predicate IsHard(servos: seq<int>, failed: set<int>, codes: seq<ReturnCode>, i: int)
    requires |servos| == |codes|
  {
    0 <= i < |servos| && !Excluded(servos[i], failed) && Hard(codes[i])
  }

  predicate IsSoft(servos: seq<int>, failed: set<int>, codes: seq<ReturnCode>, i: int)
    requires |servos| == |codes|
  {
    0 <= i < |servos| && !Excluded(servos[i], failed) && !codes[i].Success? && !Hard(codes[i])
  }

  predicate IsAlive(servos: seq<int>, failed: set<int>, codes: seq<ReturnCode>, i: int)
    requires |servos| == |codes|
  {
    0 <= i < |servos| && !Excluded(servos[i], failed) && !Unreachable(codes[i])
  }

  /** The servos that a reading does not ask. */
  function Unasked(failed: set<int>, tolerate: bool, r: Reading): set<int> {
    if tolerate then failed + Dead(r) else failed
  }

  /** The reading gets to joint `i` and asks it. */
  predicate IsRead(servos: seq<int>, failed: set<int>, tolerate: bool, r: Reading, i: int)
    requires |servos| == |r.codes|
  {
    && 0 <= i < |servos| && !Excluded(servos[i], Unasked(failed, tolerate, r))
    && (tolerate || forall j :: 0 <= j < i ==> !IsHard(servos, failed, r.codes, j))
  }

  /** What a reading measures of joint `i`. */
  function PoseRead(servos: seq<int>, failed: set<int>, tolerate: bool, r: Reading, i: nat): Option<real>
    requires |servos| == |r.codes|
  {
    if IsRead(servos, failed, tolerate, r, i) then r.poses(i) else None
  }

  predicate FirstHard(servos: seq<int>, failed: set<int>, codes: seq<ReturnCode>, i: int)
    requires |servos| == |codes|
  {
    IsHard(servos, failed, codes, i) && forall j :: 0 <= j < i ==> !IsHard(servos, failed, codes, j)
  }

  predicate FirstSoft(servos: seq<int>, failed: set<int>, codes: seq<ReturnCode>, i: int)
    requires |servos| == |codes|
  {
    IsSoft(servos, failed, codes, i) && forall j :: 0 <= j < i ==> !IsSoft(servos, failed, codes, j)
  }

  /** A ready arm outside recovery: the first hard fault in joint order wins, then a failure
      of the bus, then the first soft code. */
  ghost predicate StrictCode(servos: seq<int>, failed: set<int>, r: Reading, code: ReturnCode)
    requires |servos| == |r.codes|
  {
    if exists i :: IsHard(servos, failed, r.codes, i) then
      exists i :: FirstHard(servos, failed, r.codes, i) && code == r.codes[i]
    else if Dead(r) != {} then code == r.bulk
    else if exists i :: IsSoft(servos, failed, r.codes, i) then
      exists i :: FirstSoft(servos, failed, r.codes, i) && code == r.codes[i]
    else code == Success
  }

  /** Joint `i` is the last of the first `n` that is read. */
  predicate LastRead(servos: seq<int>, out: set<int>, n: int, i: int) {
    0 <= i < n <= |servos| && !Excluded(servos[i], out) && forall k :: i < k < n ==> Excluded(servos[k], out)
  }

  /** During recovery and start-up partial failure is tolerated: the reading succeeds when some
      joint is alive or none is left to read, and returns the last code it read otherwise. */
  ghost predicate TolerantCode(servos: seq<int>, failed: set<int>, r: Reading, code: ReturnCode)
    requires |servos| == |r.codes|
  {
    var out := failed + Dead(r);
    if (exists i :: IsAlive(servos, out, r.codes, i)) || (forall i :: 0 <= i < |servos| ==> Excluded(servos[i], out))
    then code == Success
    else exists i :: LastRead(servos, out, |servos|, i) && code == r.codes[i] && Unreachable(code)
  }

  /** The servos a tolerated reading takes out of use: silent on the bus, silent or faulted when
      read.  A hot servo and a tripped velocity or torque limit do not count. */
  function NewlyFailed(servos: seq<int>, failed: set<int>, r: Reading): set<int>
    requires |servos| == |r.codes|
  {
    Dead(r) + UnreachableUpTo(servos, failed + Dead(r), r.codes, |servos|)
  }

  function UnreachableUpTo(servos: seq<int>, out: set<int>, codes: seq<ReturnCode>, n: nat): (bad: set<int>)
    requires |servos| == |codes| && n <= |servos|
    ensures forall s :: s in bad <==>
              exists i :: 0 <= i < n && servos[i] == s && s >= 0 && s !in out && Unreachable(codes[i])
  {
    if n == 0 then {}
    else
      var i := n - 1;
      var before := UnreachableUpTo(servos, out, codes, i);
      if servos[i] >= 0 && servos[i] !in out && Unreachable(codes[i]) then before + {servos[i]} else before
  }

  ghost predicate IsVerdict(servos: seq<int>, failed: set<int>, tolerate: bool, r: Reading, v: Verdict)
    requires |servos| == |r.codes|
  {
    if tolerate then TolerantCode(servos, failed, r, v.code) && v.failed == failed + NewlyFailed(servos, failed, r)
    else StrictCode(servos, failed, r, v.code) && v.failed == failed
  }

  // ----- implementation -----

  /** What the loop knows of the first `n` joints: the first soft code, ... */
  ghost predicate SoftSoFar(servos: seq<int>, failed: set<int>, codes: seq<ReturnCode>, n: nat, soft: ReturnCode)
    requires |servos| == |codes|
  {
    && (forall j :: 0 <= j < n ==> !IsHard(servos, failed, codes, j))
    && (if soft.Success? then forall j :: 0 <= j < n ==> !IsSoft(servos, failed, codes, j)
        else exists j :: 0 <= j < n && FirstSoft(servos, failed, codes, j) && soft == codes[j])
  }

  /** ... whether one of them is alive, ... */
  ghost predicate AliveSoFar(servos: seq<int>, out: set<int>, codes: seq<ReturnCode>, n: nat, any: bool)
    requires |servos| == |codes|
  {
    any <==> exists j :: 0 <= j < n && IsAlive(servos, out, codes, j)
  }

  /** ... and the code of the last one read, or success when none was. */
  ghost predicate ReadSoFar(servos: seq<int>, out: set<int>, codes: seq<ReturnCode>, n: nat, code: ReturnCode)
    requires |servos| == |codes|
  {
    || (code.Success? && forall j :: 0 <= j < n && j < |servos| ==> Excluded(servos[j], out))
    || (exists j :: LastRead(servos, out, n, j) && code == codes[j])
  }

  lemma NothingRead(servos: seq<int>, failed: set<int>, out: set<int>, codes: seq<ReturnCode>)
    requires |servos| == |codes|
    ensures SoftSoFar(servos, failed, codes, 0, Success)
    ensures AliveSoFar(servos, out, codes, 0, false)
    ensures ReadSoFar(servos, out, codes, 0, Success)
  {
  }

  lemma NextAlive(servos: seq<int>, out: set<int>, codes: seq<ReturnCode>, i: nat, any: bool)
    requires |servos| == |codes| && i < |servos|
    requires AliveSoFar(servos, out, codes, i, any)
    ensures AliveSoFar(servos, out, codes, i + 1, any || IsAlive(servos, out, codes, i))
  {
  }

  lemma NextRead(servos: seq<int>, out: set<int>, codes: seq<ReturnCode>, i: nat, code: ReturnCode)
    requires |servos| == |codes| && i < |servos|
    requires ReadSoFar(servos, out, codes, i, code)
    ensures ReadSoFar(servos, out, codes, i + 1, if Excluded(servos[i], out) then code else codes[i])
  {
    if !Excluded(servos[i], out) {
      assert LastRead(servos, out, i + 1, i);
    } else if j :| LastRead(servos, out, i, j) && code == codes[j] {
      assert LastRead(servos, out, i + 1, j);
    }
  }

  lemma NextSoft(servos: seq<int>, failed: set<int>, codes: seq<ReturnCode>, i: nat, soft: ReturnCode)
    requires |servos| == |codes| && i < |servos|
    requires SoftSoFar(servos, failed, codes, i, soft)
    ensures IsHard(servos, failed, codes, i) ==> FirstHard(servos, failed, codes, i)
    ensures !IsHard(servos, failed, codes, i) ==> SoftSoFar(servos, failed, codes, i + 1,
              if soft.Success? && IsSoft(servos, failed, codes, i) then codes[i] else soft)
  {
    if soft.Success? && IsSoft(servos, failed, codes, i) {
      assert FirstSoft(servos, failed, codes, i);
    }
  }

  lemma FirstHardDecides(servos: seq<int>, failed: set<int>, r: Reading, i: nat)
    requires |servos| == |r.codes| && FirstHard(servos, failed, r.codes, i)
    ensures StrictCode(servos, failed, r, r.codes[i])
    ensures forall j :: FirstHard(servos, failed, r.codes, j) ==> j == i
  {
    forall j | FirstHard(servos, failed, r.codes, j) ensures j == i {
      assert !(j < i) && !(i < j);
    }
  }

  lemma NoHardFound(servos: seq<int>, failed: set<int>, codes: seq<ReturnCode>, soft: ReturnCode)
    requires |servos| == |codes|
    requires SoftSoFar(servos, failed, codes, |servos|, soft)
    ensures forall j :: !IsHard(servos, failed, codes, j)
  {
  }

  lemma StrictEnd(servos: seq<int>, failed: set<int>, r: Reading, soft: ReturnCode, code: ReturnCode)
    requires |servos| == |r.codes|
    requires SoftSoFar(servos, failed, r.codes, |servos|, soft)
    requires ReadSoFar(servos, failed, r.codes, |servos|, code)
    ensures StrictCode(servos, failed, r,
              if Dead(r) != {} then r.bulk else if !soft.Success? then soft else code)
  {
    if Dead(r) == {} && soft.Success? {
      forall j | 0 <= j < |servos| && !Excluded(servos[j], failed) ensures r.codes[j].Success? {
        assert !IsHard(servos, failed, r.codes, j) && !IsSoft(servos, failed, r.codes, j);
      }
    }
  }

  lemma TolerantEnd(servos: seq<int>, failed: set<int>, r: Reading, any: bool, code: ReturnCode)
    requires |servos| == |r.codes|
    requires AliveSoFar(servos, failed + Dead(r), r.codes, |servos|, any)
    requires ReadSoFar(servos, failed + Dead(r), r.codes, |servos|, code)
    ensures TolerantCode(servos, failed, r, if any then Success else code)
  {
    var out := failed + Dead(r);
    if !any && !(code.Success? && forall j :: 0 <= j < |servos| ==> Excluded(servos[j], out)) {
      var j :| LastRead(servos, out, |servos|, j) && code == r.codes[j];
      assert !IsAlive(servos, out, r.codes, j);
    }
  }

  lemma IsReadNext(servos: seq<int>, failed: set<int>, tolerate: bool, r: Reading, i: nat, soft: ReturnCode)
    requires |servos| == |r.codes| && i < |servos| && (!tolerate ==> SoftSoFar(servos, failed, r.codes, i, soft))
    ensures IsRead(servos, failed, tolerate, r, i) <==> !Excluded(servos[i], Unasked(failed, tolerate, r))
  {
  }

  /** A hard fault ends a reading that does not tolerate it. */
  lemma NothingReadAfter(servos: seq<int>, failed: set<int>, r: Reading, i: nat)
    requires |servos| == |r.codes| && IsHard(servos, failed, r.codes, i)
    ensures forall k: nat :: k > i ==> PoseRead(servos, failed, false, r, k) == None
  {
    forall k: nat | k > i ensures !IsRead(servos, failed, false, r, k) {
      assert 0 <= i < k;
    }
  }

  /** The outcome of the bulk read: its code, and the servos that are out of use for the
      joints about to be read. */
  method ReadBulk(failed: set<int>, tolerate: bool, r: Reading, lastFailed: int)
    returns (bulk: ReturnCode, marked: set<int>, named: int)
    ensures bulk == if Dead(r) == {} then Success else r.bulk
    ensures marked == if tolerate then failed + Dead(r) else failed
    ensures if Dead(r) == {} then named == lastFailed
            else named in Dead(r) && forall s :: s in Dead(r) ==> named <= s
  {
    bulk, marked, named := r.bulk, failed, lastFailed;
    if !bulk.Success? {
      var dead := r.dead - r.foreign;
      if dead == {} {
        bulk := Success;
      } else {
        named := Lowest(dead);
        if tolerate {
          marked := marked + dead;
        }
      }
    }
  }

  /** The code's loop.  `tolerate` is true during recovery and before the arm is ready. */
  method ReadHardwareValues(servos: seq<int>, failed: set<int>, tolerate: bool, r: Reading, lastFailed: int)
    returns (v: Verdict, poses: seq<Option<real>>, named: int)
    requires |servos| == |r.codes|
    ensures IsVerdict(servos, failed, tolerate, r, v)
    ensures |poses| <= |servos|
    ensures forall i: nat :: i < |servos| ==>
              PoseRead(servos, failed, tolerate, r, i) == if i < |poses| then poses[i] else None
    ensures !tolerate ==> forall i :: FirstHard(servos, failed, r.codes, i) && servos[i] >= 0 ==> named == servos[i]
  {
    hide SoftSoFar, AliveSoFar, ReadSoFar, StrictCode, TolerantCode;
    var bulk, marked;
    bulk, marked, named := ReadBulk(failed, tolerate, r, lastFailed);
    var skip := marked;
    var code, soft, anyAlive := Success, Success, false;
    var i := 0;
    poses := [];
    NothingRead(servos, failed, skip, r.codes);
    while i < |servos|
      invariant i <= |servos|
      invariant marked == if tolerate then skip + UnreachableUpTo(servos, skip, r.codes, i) else failed
      invariant !tolerate ==> SoftSoFar(servos, failed, r.codes, i, soft)
      invariant tolerate ==> AliveSoFar(servos, skip, r.codes, i, anyAlive)
      invariant ReadSoFar(servos, skip, r.codes, i, code)
      invariant |poses| == i
      invariant forall k: nat :: k < i ==> poses[k] == PoseRead(servos, failed, tolerate, r, k)
    {
      IsReadNext(servos, failed, tolerate, r, i, soft);
      poses := poses + [if servos[i] >= 0 && servos[i] in skip then None else r.poses(i)];
      if !tolerate {
        NextSoft(servos, failed, r.codes, i, soft);
      } else {
        NextAlive(servos, skip, r.codes, i, anyAlive);
      }
      NextRead(servos, skip, r.codes, i, code);
      if !(servos[i] >= 0 && servos[i] in skip) {
        code := r.codes[i];
        if code.Success? {
          anyAlive := true;
        } else {
          if servos[i] >= 0 && (Hard(code) || !tolerate) {
            named := servos[i];
          }
          if code.SafeModeSig? || code.HardwareFault? {
            if !tolerate {
              FirstHardDecides(servos, failed, r, i);
              NothingReadAfter(servos, failed, r, i);
              return Verdict(code, marked), poses, named;
            }
            if servos[i] >= 0 {
              marked := marked + {servos[i]};
            }
          } else if code.SafeModeTemperature? {
            if !tolerate {
              FirstHardDecides(servos, failed, r, i);
              NothingReadAfter(servos, failed, r, i);
              return Verdict(code, marked), poses, named;
            }
            anyAlive := true;
          } else {
            if !tolerate && soft.Success? {
              soft := code;
            }
            if tolerate {
              anyAlive := true;
            }
          }
        }
      }
      i := i + 1;
    }
    if tolerate {
      TolerantEnd(servos, failed, r, anyAlive, code);
      return Verdict(if anyAlive then Success else code, marked), poses, named;
    }
    StrictEnd(servos, failed, r, soft, code);
    NoHardFound(servos, failed, r.codes, soft);
    if !bulk.Success? {
      return Verdict(bulk, marked), poses, named;
    }
    if !soft.Success? {
      return Verdict(soft, marked), poses, named;
    }
    return Verdict(code, marked), poses, named;
  }

  lemma Inhabited(s: set<int>)
    ensures s == {} || exists x :: x in s
  {
    if !exists x :: x in s {
      assert s == {};
    }
  }

  /** The lowest silent servo: on a daisy-chained bus the place of the disconnection. */
  method Lowest(s: set<int>) returns (m: int)
    requires s != {}
    ensures m in s && forall x :: x in s ==> m <= x
  {
    Inhabited(s);
    m :| m in s;
    var rest := s - {m};
    while rest != {}
      invariant m in s && rest <= s
      invariant forall x :: x in s ==> x in rest || m <= x
      decreases rest
    {
      Inhabited(rest);
      var x :| x in rest;
      if x < m {
        m := x;
      }
      rest := rest - {x};
    }
  }

  // ----- consequences -----

  lemma TolerantCodeIsUnique(servos: seq<int>, failed: set<int>, r: Reading, c: ReturnCode, c': ReturnCode)
    requires |servos| == |r.codes|
    requires TolerantCode(servos, failed, r, c) && TolerantCode(servos, failed, r, c')
    ensures c == c'
  {
    var out := failed + Dead(r);
    if i, j :|
      LastRead(servos, out, |servos|, i) && LastRead(servos, out, |servos|, j) && c == r.codes[i] && c' == r.codes[j]
    {
      assert !(i < j) && !(j < i);
    }
  }

  lemma StrictCodeIsUnique(servos: seq<int>, failed: set<int>, r: Reading, c: ReturnCode, c': ReturnCode)
    requires |servos| == |r.codes|
    requires StrictCode(servos, failed, r, c) && StrictCode(servos, failed, r, c')
    ensures c == c'
  {
    if exists i :: IsHard(servos, failed, r.codes, i) {
      var i :| FirstHard(servos, failed, r.codes, i) && c == r.codes[i];
      var i' :| FirstHard(servos, failed, r.codes, i') && c' == r.codes[i'];
      assert !(i < i') && !(i' < i);
    } else if Dead(r) == {} && exists i :: IsSoft(servos, failed, r.codes, i) {
      var i :| FirstSoft(servos, failed, r.codes, i) && c == r.codes[i];
      var i' :| FirstSoft(servos, failed, r.codes, i') && c' == r.codes[i'];
      assert !(i < i') && !(i' < i);
    }
  }

  /** The verdict is determined by the specification, whatever computes it. */
  lemma VerdictIsUnique(servos: seq<int>, failed: set<int>, tolerate: bool, r: Reading, v: Verdict, v': Verdict)
    requires |servos| == |r.codes|
    requires IsVerdict(servos, failed, tolerate, r, v) && IsVerdict(servos, failed, tolerate, r, v')
    ensures v == v'
  {
    hide StrictCode, TolerantCode;
    if tolerate {
      TolerantCodeIsUnique(servos, failed, r, v.code, v'.code);
    } else {
      StrictCodeIsUnique(servos, failed, r, v.code, v'.code);
    }
  }

  /** A ready arm outside recovery reads successfully exactly when nothing is wrong. */
  lemma StrictSuccess(servos: seq<int>, failed: set<int>, r: Reading, v: Verdict)
    requires |servos| == |r.codes| && IsVerdict(servos, failed, false, r, v)
    ensures v.code.Success? <==>
              Dead(r) == {} && forall i :: 0 <= i < |servos| && !Excluded(servos[i], failed) ==> r.codes[i].Success?
  {
    if v.code.Success? {
      forall i | 0 <= i < |servos| && !Excluded(servos[i], failed) ensures r.codes[i].Success? {
        assert !IsHard(servos, failed, r.codes, i) && !IsSoft(servos, failed, r.codes, i);
      }
    }
  }

  /** What a reading can add to the failed set, in both modes. */
  lemma OnlyUnreachableServosFail(servos: seq<int>, failed: set<int>, tolerate: bool, r: Reading, v: Verdict, s: int)
    requires |servos| == |r.codes| && IsVerdict(servos, failed, tolerate, r, v)
    requires s in v.failed && s !in failed
    ensures tolerate
    ensures s in Dead(r) || exists i :: 0 <= i < |servos| && servos[i] == s && Unreachable(r.codes[i])
    ensures failed <= v.failed
  {
  }

  // ----- the triage, code by code -----

  /** The servo is asked: it is on no list of failed servos. */
  predicate Asked(servos: seq<int>, out: set<int>, i: int)
    requires 0 <= i < |servos|
  {
    servos[i] < 0 || servos[i] !in out
  }

  /** A reading that tolerates failures gives up on exactly the servos that are missing on the bus and
      belong to no effector that has yet to start, and on those that are asked and answer with a lost
      signal or a hardware fault.  A hot servo, or one that tripped a limit, stays in use. */
  lemma GivenUpIff(servos: seq<int>, failed: set<int>, r: Reading, v: Verdict, s: int)
    requires |servos| == |r.codes| && IsVerdict(servos, failed, true, r, v)
    ensures s in v.failed <==>
      || s in failed
      || (r.bulk != Success && s in r.dead && s !in r.foreign)
      || exists i :: 0 <= i < |servos| && servos[i] == s && s >= 0
                     && (r.codes[i] == SafeModeSig || r.codes[i] == HardwareFault)
  {
  }

  /** Such a reading succeeds exactly if some joint that is asked can still be commanded, a hot one
      included, or none is left to ask. */
  lemma ToleratedIff(servos: seq<int>, failed: set<int>, r: Reading, v: Verdict)
    requires |servos| == |r.codes| && IsVerdict(servos, failed, true, r, v)
    ensures var out := failed + if r.bulk == Success then {} else r.dead - r.foreign;
      v.code == Success <==>
        || (exists i :: 0 <= i < |servos| && Asked(servos, out, i)
                        && r.codes[i] != SafeModeSig && r.codes[i] != HardwareFault)
        || (forall i :: 0 <= i < |servos| ==> !Asked(servos, out, i))
  {
    var out := failed + Dead(r);
    assert forall i :: 0 <= i < |servos| ==> (Asked(servos, out, i) <==> !Excluded(servos[i], out));
    if i :| 0 <= i < |servos| && Asked(servos, out, i) && r.codes[i] != SafeModeSig && r.codes[i] != HardwareFault {
      assert IsAlive(servos, out, r.codes, i);
    }
  }

  /** A lost signal, an over-temperature and a hardware fault end the reading of a ready arm: the first of
      them in joint order is its code.  Without one, a failure of the bus is, if it concerns a servo of
      the arm. */
  lemma FirstFaultDecides(servos: seq<int>, failed: set<int>, r: Reading, v: Verdict, i: nat)
    requires |servos| == |r.codes| && IsVerdict(servos, failed, false, r, v)
    requires i < |servos| && Asked(servos, failed, i) && r.codes[i] in {SafeModeSig, SafeModeTemperature, HardwareFault}
    requires forall j :: 0 <= j < i && Asked(servos, failed, j) ==>
      r.codes[j] !in {SafeModeSig, SafeModeTemperature, HardwareFault}
    ensures v.code == r.codes[i] && v.failed == failed
  {
    assert FirstHard(servos, failed, r.codes, i);
    var k :| FirstHard(servos, failed, r.codes, k) && v.code == r.codes[k];
  }

  lemma BusFailureDecides(servos: seq<int>, failed: set<int>, r: Reading, v: Verdict)
    requires |servos| == |r.codes| && IsVerdict(servos, failed, false, r, v)
    requires forall j :: 0 <= j < |servos| && Asked(servos, failed, j) ==>
      r.codes[j] !in {SafeModeSig, SafeModeTemperature, HardwareFault}
    requires r.bulk != Success && !(r.dead <= r.foreign)
    ensures v.code == r.bulk && v.failed == failed
  {
    assert forall i :: !IsHard(servos, failed, r.codes, i);
    if r.dead - r.foreign == {} {
      forall x | x in r.dead ensures x in r.foreign {
        assert x !in r.dead - r.foreign;
      }
    }
  }
}
