/** The fields of a teleoperation pair and its critical sections: what each block of
    `TeleopPair` under the state lock does to them.  The interleaving of these sections
    by any number of threads is in module `Teleop`. */
module Engagement {
  import opened Wrappers

  datatype Pair = Pair(
    engaged: bool,
    alignCancel: bool,
    engageInProgress: bool,
    generation: nat,
    armGenerations: Option<(nat, nat)>,
    needsRollback: bool,
    blocked: bool)

  datatype Admission = Rejected | AlreadyAdmitted | Admitted

  /** Who may start an engagement. */
  function Decide(p: Pair, leaderConnected: bool, followerConnected: bool): Admission {
    if p.blocked || !leaderConnected || !followerConnected then Rejected
    else if p.engaged || p.engageInProgress then AlreadyAdmitted
    else Admitted
  }

  function Admit(p: Pair, leaderGeneration: nat, followerGeneration: nat): Pair {
    p.(armGenerations := Some((leaderGeneration, followerGeneration)), engageInProgress := true,
       generation := p.generation + 1, needsRollback := true, alignCancel := false)
  }

  /** Whether a rollback has anything to do; a disengage only undoes the engagement it saw. */
  predicate RollbackDue(p: Pair, expected: Option<nat>) {
    (expected.Some? ==> expected.value == p.generation) && p.needsRollback
  }

  function TakeRollback(p: Pair): Pair { p.(needsRollback := false, engaged := false) }

  function Owe(p: Pair): Pair { p.(needsRollback := true) }

  function Mark(p: Pair): Pair { p.(engaged := true) }

  function Finish(p: Pair): Pair { p.(engageInProgress := false) }

  function Cancel(p: Pair): Pair { p.(alignCancel := true) }

  function Block(p: Pair): Pair { p.(blocked := true, alignCancel := true) }

  function Allow(p: Pair): Pair { p.(blocked := false) }

  class TeleopPair {
    var engaged: bool
    var alignCancel: bool
    var engageInProgress: bool
    var engagementGeneration: nat
    var engagementArmGenerations: Option<(nat, nat)>
    var needsRollback: bool
    var engagementBlocked: bool

    function View(): Pair
      reads this
    {
      Pair(engaged, alignCancel, engageInProgress, engagementGeneration, engagementArmGenerations, needsRollback,
           engagementBlocked)
    }

    constructor ()
      ensures View() == Pair(false, false, false, 0, None, false, false)
    {
      engaged, alignCancel, engageInProgress := false, false, false;
      engagementGeneration, engagementArmGenerations := 0, None;
      needsRollback, engagementBlocked := false, false;
    }

    /** The section of `_begin_engage`; the generations are those of the connected arms. */
    method BeginEngage(leaderConnected: bool, followerConnected: bool, leaderGeneration: nat, followerGeneration: nat)
      returns (outcome: Admission)
      modifies this
      ensures outcome == Decide(old(View()), leaderConnected, followerConnected)
      ensures View() == if outcome == Admitted then Admit(old(View()), leaderGeneration, followerGeneration)
                        else old(View())
    {
      if engagementBlocked {
        return Rejected;
      }
      if !leaderConnected || !followerConnected {
        return Rejected;
      }
      var alreadyAdmitted := engaged || engageInProgress;
      if alreadyAdmitted {
        return AlreadyAdmitted;
      }
      engagementArmGenerations := Some((leaderGeneration, followerGeneration));
      engageInProgress := true;
      engagementGeneration := engagementGeneration + 1;
      needsRollback := true;
      alignCancel := false;
      return Admitted;
    }

    /** The deciding section of `_rollback`. */
    method BeginRollback(expectedGeneration: Option<nat>) returns (due: bool, armGenerations: Option<(nat, nat)>)
      modifies this
      ensures due == RollbackDue(old(View()), expectedGeneration)
      ensures View() == if due then TakeRollback(old(View())) else old(View())
      ensures due ==> armGenerations == old(View()).armGenerations
    {
      if expectedGeneration.Some? && expectedGeneration.value != engagementGeneration {
        return false, None;
      }
      if !needsRollback {
        return false, None;
      }
      needsRollback := false;
      engaged := false;
      return true, engagementArmGenerations;
    }

    /** `_raise_if_alignment_cancelled` after a cancel was seen, and a failed cleanup. */
    method OweRollback()
      modifies this
      ensures View() == Owe(old(View()))
    {
      needsRollback := true;
    }

    method MarkEngaged()
      modifies this
      ensures View() == Mark(old(View()))
    {
      engaged := true;
    }

    method FinishEngage()
      modifies this
      ensures View() == Finish(old(View()))
    {
      engageInProgress := false;
    }

    method CancelEngage()
      modifies this
      ensures View() == Cancel(old(View()))
    {
      alignCancel := true;
    }

    method BlockEngagement()
      modifies this
      ensures View() == Block(old(View()))
    {
      engagementBlocked := true;
      alignCancel := true;
    }

    method AllowEngagement()
      modifies this
      ensures View() == Allow(old(View()))
    {
      engagementBlocked := false;
    }
  }
}
