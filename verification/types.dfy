/** Values shared by every part of the robot's teleop control. */
module Types {

  /** The per-cycle edge event of a tracked button or switch: no change since the
      previous sample, a false-to-true transition, or a true-to-false transition. */
  datatype Event = NoEvent | Closed | Opened

  /** The commanded position of a double-acting solenoid. Forward is high gear for
      the shifter and locked for a claw; Reverse is low gear and unlocked; Off is
      the position of a solenoid that has never been set. */
  datatype Position = Forward | Reverse | Off

  datatype Option<T> = None | Some(value: T)

  /** The (move, rotate) arguments handed to the drive library's arcade drive. */
  datatype DriveCommand = DriveCommand(move: real, rotate: real)

  function Abs(x: real): real {
    if x < 0.0 then -x else x
  }
}
