/** The main loop as a program: the turns of `ControlNode` carried out on an arm object. */
module NodeLoop {
  import opened Device
  import opened ControlNode
  import opened Devices
  import FailedJoints
  import ReadTriage

  class ControlLoop {
    const arm: DeviceArm
    var informedReadyNow: bool
    var announceLoopsRemaining: int

    constructor (a: DeviceArm)
      ensures arm == a && View() == Node(a.View(), false, 0)
    {
      arm, informedReadyNow, announceLoopsRemaining := a, false, 0;
    }

    ghost function View(): Node
      reads this, arm, arm.Parts()
    {
      Node(arm.View(), informedReadyNow, announceLoopsRemaining)
    }

    ghost predicate Valid() { arm.Valid() && this as object != arm && this as object !in arm.Parts() }

    /** READY_NOW at the first ready turn, and periodically for about a second. */
    method AnnounceReady()
      requires Valid()
      modifies this, arm`events
      ensures View() == Announce(arm.cfg, old(View()))
    {
      var freq := arm.cfg.frequency;
      var total := if freq >= 1 then freq else 1;
      var interval := if freq >= 10 then freq / 10 else 1;
      if !arm.isReady {
        informedReadyNow := false;
      } else {
        if !informedReadyNow {
          announceLoopsRemaining := total;
          informedReadyNow := true;
        }
        if announceLoopsRemaining > 0 {
          if announceLoopsRemaining == total || announceLoopsRemaining % interval == 0 {
            arm.Publish(ReadyNow(if arm.completedId > 0 then arm.completedId else 0));
          }
          announceLoopsRemaining := announceLoopsRemaining - 1;
        }
      }
    }

    /** One turn, for a loop whose topic is running. */
    method TurnOnce(input: NodeInput, reading: ReadTriage.Reading) returns (inp: StepInput)
      requires Valid() && arm.running && |reading.codes| == arm.base.joints.Length
      modifies this, arm, arm.Parts()
      ensures View() == Turn(arm.cfg, old(View()), input.(step := inp))
      ensures FailedJoints.Judged(input.step, inp) && FailedJoints.ReadBy(old(arm.View()), inp, reading)
    {
      hide ArmStep, EnterRecovery, Announce, FailedJoints.ReadBy;
      var code;
      inp, code := arm.StepBoth(input.step, reading);
      if !code.Success? && !arm.Recovering() {
        arm.EnterEmergencyRecovery(code, input.joint);
      }
      AnnounceReady();
    }
  }
}
