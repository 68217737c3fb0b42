# Wham-O teleop control, modelled in Dafny

This project models the operator-control core of `RobotDemo`, the 2013 robot
of FRC team 2994. Each cycle of its teleop loop reads three things: the edge
events (`NoEvent`, `Closed`, `Opened`) of the tracked buttons and switches,
the stick axes, and the arm potentiometer voltage. It then runs four
handlers in a fixed order: collector, manual drive, arm, shooter. Those
handlers update the interlock flags, the motor commands and the solenoid
positions.

Files:

- `types.dfy` (module `Types`): edge events, solenoid positions
  (`Forward`, `Reverse`, `Off`) and the arcade-drive arguments.
- `interlock.dfy` (module `Interlock`): the collector/shooter state machine
  over the two running flags and three motor commands. It carries the
  invariant that the collector and the shooter never run together.
- `drive.dfy` (module `Drive`): manual and automatic gear shifting, and the
  signed, gear-scaled squaring of the drive stick.
- `arm.dfy` (module `Arm`): the bang-bang arm motor with its deadband and
  voltage guards, and the first-match-wins claw chain.
- `teleop.dfy` (module `Teleop`): the robot state as a value, one function
  per handler, the cycle, a run over a sequence of samples, and the lemmas
  that the interlock and its motor invariant hold after every cycle.
- `robot.dfy` (module `Robot`): class `RobotDemo`. Its fields are the
  source's member flags, motor commands and solenoid positions, plus a
  `drive` field with no counterpart in the source: it records the
  arguments of the most recent arcade-drive call. Its methods
  are the source's handlers. The arm, claw, shift, collector and shooter
  logic is written as the same if/else chains that update the fields in
  place, and the squared drive command is built by the same four branches. Each handler method is proved to produce
  exactly the state that the matching `Teleop` function describes.
  `SquareInputs` changes only `drive`, and is proved against
  `Drive.SquareInputs`. `OperatorControl`
  is the teleop `while` loop over a finite sequence of per-cycle samples.

Axes and voltages are `real`. The threshold comparisons and the constant
gains are modelled exactly.

Some of the code's behaviour is easy to misread. The model keeps each of
these points exactly as written:

- Drive scaling: full forward stick (y = -1) in low gear gives a throttle of
  -4.0, not +4.0.
- Drive scaling: a centred stick (y = 0) issues no drive command at all,
  rather than a zero command. The same holds for a shifter that is `Off`.
- Automatic shifting: the down-shift branch fires for any shifter position
  other than `Reverse`, `Off` included.
- Shooter handler: its stop branch also runs while only the collector runs.
  An index-switch `Closed` then zeroes the shooter and indexer motors and
  leaves both flags as they were.
- Claws: they stay `Off` (never commanded) from construction until teleop
  starts. Teleop start sets them to `Reverse`.

## Model

| member | source | states |
|---|---|---|
| `Interlock.CollectorStep` | FRC2994_2013/FRC2994_2013.cpp:200-225 | While the shooter runs nothing changes. Otherwise the first of fwd-Closed (+1.0, running), fwd-Opened (0.0, stopped), rev-Closed (-1.0, running), rev-Opened (0.0, stopped) applies, and with no events nothing changes. After any write the flag is true exactly when the motor command is nonzero. The shooter side is never touched. Exclusion and the full mechanism invariant are preserved. |
| `Interlock.ShooterStep` | FRC2994_2013/FRC2994_2013.cpp:227-247 | The shooter starts (both motors -0.5) iff the shooter button reports Closed while both flags are false. A running shooter stops (both motors 0) iff the index switch reports Closed. An idle mechanism without a button Closed is left exactly as it was. A running shooter without an index-switch Closed is also left as it was, so releasing the button never stops it. While only the collector runs, an index-switch Closed zeroes both motors and keeps the flags. The collector side is never touched. Exclusion and the invariant are preserved. |
| `Interlock.NoSimultaneousCommands` | FRC2994_2013/FRC2994_2013.cpp:200-247 | In a consistent mechanism the collector motor and the shooter or indexer motor are never both nonzero. |
| `Drive.ManualShift` | FRC2994_2013/FRC2994_2013.cpp:87-96 | Shift Closed gives high gear (Forward) and shift Opened gives low gear (Reverse). The shifter changes only on an event. |
| `Drive.AutoShift` | FRC2994_2013/FRC2994_2013.cpp:103-115 | From low gear it goes to high iff y < -0.25. From any other position it goes to low iff y > -0.2, and otherwise stays put. |
| `Drive.AutoShiftHysteresis` | FRC2994_2013/FRC2994_2013.cpp:103-115 | For y in [-0.25, -0.2] no position shifts. |
| `Drive.AutoShiftSettles` | FRC2994_2013/FRC2994_2013.cpp:103-115 | With the stick held still, a second evaluation never shifts again, so there is no chatter. |
| `Drive.AutoShiftWalkthrough` | FRC2994_2013/FRC2994_2013.cpp:103-115 | In low gear -0.3 shifts up, then -0.1 shifts down. In high gear -0.22 stays. |
| `Drive.SquareInputs` | FRC2994_2013/FRC2994_2013.cpp:120-144 | No command is issued exactly when y = 0 or the shifter is Off. Any command passes the turn axis X unchanged. |
| `Drive.SquareInputsThrottle` | FRC2994_2013/FRC2994_2013.cpp:122-143 | An issued throttle has the sign of y, and its magnitude is y² times the gear's gain (4 in low gear, 1 in high gear). |
| `Drive.SquareInputsBelowLinear` | FRC2994_2013/FRC2994_2013.cpp:122-143 | For \|y\| ≤ 1 the throttle magnitude never exceeds gain·\|y\|, which gives finer control at low speed. |
| `Drive.SquareInputsMonotone` | FRC2994_2013/FRC2994_2013.cpp:122-143 | In a fixed gear the throttle is strictly increasing in y. |
| `Drive.FullStickThrottle` | FRC2994_2013/FRC2994_2013.cpp:122-132 | y = -1 gives -4.0 in low gear and -1.0 in high gear. y = 0 issues nothing. |
| `Arm.ArmOutput` | FRC2994_2013/FRC2994_2013.cpp:148-173 | The arm command is one of 1.0, 0.0, -1.0. It is 1.0 iff y < -0.1 and v < 4.5, and -1.0 iff y > 0.1 and v > 0.5. It is 0 inside the ±0.1 deadband. |
| `Arm.ArmRespectsLimits` | FRC2994_2013/FRC2994_2013.cpp:150-167 | At or above 4.5 V the arm is never driven up. At or below 0.5 V it is never driven down. |
| `Arm.ClawStep` | FRC2994_2013/FRC2994_2013.cpp:175-190 | At most one claw is set per call. The order is claw-1-lock, claw-1-unlock, claw-2-lock, claw-2-unlock, and the first Closed wins, so lock beats unlock. The other claw is unchanged, and without a Closed event nothing moves. |
| `Arm.ClawMovesOnlyOnItsButtons` | FRC2994_2013/FRC2994_2013.cpp:175-190 | A claw only moves to the position named by one of its own buttons reporting Closed. |
| `Teleop.Constructed` | FRC2994_2013/FRC2994_2013.cpp:60-71 | After construction both flags are false, the arm command is 0, no drive command has been issued, the shifter is in low gear (Reverse), the claws are never set (Off), and the state satisfies the safety invariant. |
| `Teleop.Start` | FRC2994_2013/FRC2994_2013.cpp:267-270 | Entering teleop sets the shifter and both claws to Reverse. Nothing else changes, and safety is preserved. |
| `Teleop.CollectorHandler` | FRC2994_2013/FRC2994_2013.cpp:200-225 | The collector handler changes only the mechanism, as CollectorStep says. |
| `Teleop.ShooterHandler` | FRC2994_2013/FRC2994_2013.cpp:227-247 | The shooter handler changes only the mechanism, as ShooterStep says. |
| `Teleop.ManualDriverHandler` | FRC2994_2013/FRC2994_2013.cpp:84-97 | The raw stick (Y, X) goes to arcade drive and the shifter follows ManualShift. Nothing else changes. |
| `Teleop.AutomaticDriverHandler` | FRC2994_2013/FRC2994_2013.cpp:99-118 | It shifts first, then drives with the squared stick in the new gear. When nothing is issued the previous drive command stays. Only the shifter and the drive change. |
| `Teleop.ArmHandler` | FRC2994_2013/FRC2994_2013.cpp:146-191 | The arm handler writes the arm command and steps the claws. Nothing else changes. |
| `Teleop.Cycle` | FRC2994_2013/FRC2994_2013.cpp:280-283 | One iteration runs collector, drive, arm, then shooter. The mechanism depends only on the collector and shooter steps. The shifter follows ManualShift, the raw stick (Y, X) is the drive command, the arm command is ArmOutput, and the claws follow ClawStep. Exclusion holds after the collector call, and the safety invariant holds after the whole cycle. |
| `Teleop.Run` | FRC2994_2013/FRC2994_2013.cpp:274-286 | No samples leave the state unchanged, and a single sample applies exactly one Cycle. |
| `Teleop.RunConcat` | FRC2994_2013/FRC2994_2013.cpp:274-286 | Running two sample sequences one after the other equals running their concatenation, so the loop applies one Cycle per sample, in order. |
| `Teleop.RunSafe` | FRC2994_2013/FRC2994_2013.cpp:274-286 | The safety invariant holds after any number of cycles. |
| `Teleop.TeleopNeverRunsBoth` | FRC2994_2013/FRC2994_2013.cpp:249-286 | From construction through teleop start and any sample sequence, the two flags are never both true. The collector motor and the shooter or indexer motor are never both nonzero. |
| `Teleop.ShooterRunsUntilIndexSwitch` | FRC2994_2013/FRC2994_2013.cpp:202-245 | From any state where the shooter runs, cycles without an index-switch Closed leave the mechanism unchanged. Collector events are ignored, and the button cannot stop the shooter. |
| `Teleop.CollectorWinsSameCycle` | FRC2994_2013/FRC2994_2013.cpp:280-283 | Collector-forward and shooter-button Closed can arrive in the same idle cycle. The collector starts and the shooter does not. |
| `Teleop.CollectorShooterScenario` | FRC2994_2013/FRC2994_2013.cpp:200-247 | The sequence is forward press, shooter press (ignored), forward release, shooter press, then index switch. It gives collector 1.0, unchanged, all stopped, shooter and indexer -0.5, all stopped. |
| `Robot.RobotDemo.constructor` | FRC2994_2013/FRC2994_2013.cpp:45-71 | The fields hold the constructed state: flags false, shifter Reverse, the invariant established. |
| `Robot.RobotDemo.HandleDriverInputsManual` | FRC2994_2013/FRC2994_2013.cpp:84-97 | The new object state is ManualDriverHandler of the old one, and validity is preserved. |
| `Robot.RobotDemo.HandleDriverInputsAutomatic` | FRC2994_2013/FRC2994_2013.cpp:99-118 | The new object state is AutomaticDriverHandler of the old one, and validity is preserved. |
| `Robot.RobotDemo.SquareInputs` | FRC2994_2013/FRC2994_2013.cpp:120-144 | The drive field becomes the command Drive.SquareInputs issues, or keeps its old value when none is issued. |
| `Robot.RobotDemo.HandleArmInputs` | FRC2994_2013/FRC2994_2013.cpp:146-191 | The new object state is ArmHandler of the old one, and validity is preserved. |
| `Robot.RobotDemo.HandleCollectorInputs` | FRC2994_2013/FRC2994_2013.cpp:200-225 | The new object state is CollectorHandler of the old one. Validity is preserved, and if the flags were not both true before, they are not both true afterwards. |
| `Robot.RobotDemo.HandleShooterInputs` | FRC2994_2013/FRC2994_2013.cpp:227-247 | The new object state is ShooterHandler of the old one. Validity is preserved, and if the flags were not both true before, they are not both true afterwards. |
| `Robot.RobotDemo.OperatorControl` | FRC2994_2013/FRC2994_2013.cpp:249-287 | After the loop the object holds Run(Start(old state), samples). The safety invariant is a loop invariant and holds at the end. |

## Left out

- Edge-event detection is not modelled. `EGamepad`, `EJoystick`, `EDigitalInput` and their `Update`, `EnableButton` and `GetEvent` are not part of this model. Each cycle's events are inputs.
- Arcade drive is modelled only by the (move, rotate) arguments handed to it. The library's own input squaring and left/right mixing are not modelled, and neither is motor-safety expiration (`SetExpiration`, `SetSafetyEnabled`).
- Manual driving passes the joystick object itself. The model records its (GetY, GetX) values as the arguments.
- Driver-station LCD output, `Compressor::Start`, and the hardware channel and controller-type assignments are not modelled. They are I/O with no decision logic.
- `Autonomous` and the 5 ms `Wait` are not modelled. They are a timed drive and a sleep.
- `IsOperatorControl()` is not modelled as a signal. The loop runs once per sample of a finite sequence.
- `Test()` is empty in the source and is not modelled.
- Each axis is read once per cycle (`stickY`, `stickX`, `armY`, `voltage`). The source calls `stick.GetY()` afresh at every comparison and product, and `gamepad.GetLeftY()` twice. The driver-station data can change between those reads within one call, and the model does not capture that.
- Floating-point rounding is not modelled. Axes and voltages are exact reals.
- Motor controllers are taken to output 0 until first set.
- `DoubleSolenoid::Get` is taken to return the last commanded position.
