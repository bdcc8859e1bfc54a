/** Result codes and constants shared by the native control modules. */
module Control {
  datatype ReturnCode =
    | Success
    | SafeModeSig            // a servo does not answer
    | SafeModeTemperature    // a servo is too hot, but still answers
    | HardwareFault          // a servo reports a fault
    | Other(code: int)       // every other code: velocity and torque limits, bus and call failures

  const BUSY := Other(-7)

  datatype Role = Leader | Follower

  const DEVICE_ARRIVED_CONFIRM_CNT := 30
  const READY_MOVE_BUDGET_MIN_ITERS := 1500
  const READY_MOVE_BUDGET_TRAVEL_SCALE := 3
  const READY_MOVE_TOLERANCE_HYSTERESIS_RAD := 0.001
  const READY_MOVE_STUCK_POS_DELTA_RAD := 0.0001
  const READY_MOVE_STUCK_ITER_THRESHOLD := 200
  const EMERGENCY_PROGRESS_PUBLISH_INTERVAL_MS := 200
}
