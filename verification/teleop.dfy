/** One teleop control cycle of the robot as a function of its state and the
    inputs sampled at the start of the cycle, and a run of many cycles. */
module Teleop {
  import opened Types
  import opened Interlock
  import opened Drive
  import opened Arm

  /** Everything sampled in one cycle: the edge events of the tracked buttons
      and switches, and the analog axes and voltage. */
  datatype Inputs = Inputs(
    collectorFwd: Event,
    collectorRev: Event,
    shooterButton: Event,
    clawOneLock: Event,
    clawOneUnlock: Event,
    clawTwoLock: Event,
    clawTwoUnlock: Event,
    shift: Event,
    indexSwitch: Event,
    stickX: real,
    stickY: real,
    armY: real,
    voltage: real)

  /** The robot's persisted state: the interlock mechanism, the three
      solenoid positions, the arm motor command, and the arguments of the
      most recent arcade-drive call (None before the first). */
  datatype RobotState = RobotState(
    mech: Mechanism,
    shifter: Position,
    claws: Claws,
    armMotor: real,
    drive: Option<DriveCommand>)

  /** The invariant every cycle keeps. */
  predicate Safe(s: RobotState) {
    Consistent(s.mech) && (s.armMotor == 1.0 || s.armMotor == 0.0 || s.armMotor == -1.0)
  }

  /** The state right after construction: both flags false, every motor at
      0, the shifter commanded to low gear, the claws never set. */
  function Constructed(): (r: RobotState)
    ensures Safe(r)
    ensures !r.mech.collectorRunning && !r.mech.shooterRunning
    ensures r.shifter == Reverse && r.claws == Claws(Off, Off)
    ensures r.armMotor == 0.0 && r.drive == None
  {
    RobotState(Stopped, Reverse, Claws(Off, Off), 0.0, None)
  }

  /** Entering teleop: the shifter and both claws are commanded to Reverse;
      nothing else changes. */
  function Start(s: RobotState): (r: RobotState)
    ensures r.shifter == Reverse && r.claws == Claws(Reverse, Reverse)
    ensures r.mech == s.mech && r.armMotor == s.armMotor && r.drive == s.drive
    ensures Safe(s) ==> Safe(r)
  {
    s.(shifter := Reverse, claws := Claws(Reverse, Reverse))
  }

  function CollectorHandler(s: RobotState, sample: Inputs): (r: RobotState)
    ensures r.mech == CollectorStep(s.mech, sample.collectorFwd, sample.collectorRev)
    ensures r == s.(mech := r.mech)
  {
    s.(mech := CollectorStep(s.mech, sample.collectorFwd, sample.collectorRev))
  }

  function ShooterHandler(s: RobotState, sample: Inputs): (r: RobotState)
    ensures r.mech == ShooterStep(s.mech, sample.shooterButton, sample.indexSwitch)
    ensures r == s.(mech := r.mech)
  {
    s.(mech := ShooterStep(s.mech, sample.shooterButton, sample.indexSwitch))
  }

  /** Manual driving: the raw stick is handed to arcade drive, then the shift
      button's events move the shifter. */
  function ManualDriverHandler(s: RobotState, sample: Inputs): (r: RobotState)
    ensures r.drive == Some(DriveCommand(sample.stickY, sample.stickX))
    ensures r.shifter == ManualShift(s.shifter, sample.shift)
    ensures r == s.(drive := r.drive, shifter := r.shifter)
  {
    s.(drive := Some(DriveCommand(sample.stickY, sample.stickX)),
       shifter := ManualShift(s.shifter, sample.shift))
  }

  /** Automatic driving: shift on the stick's Y value, then drive with the
      squared stick in the new gear; when no drive command is issued the
      field keeps the previous call's arguments. */
  function AutomaticDriverHandler(s: RobotState, sample: Inputs): (r: RobotState)
    ensures r.shifter == AutoShift(s.shifter, sample.stickY)
    ensures r.drive == if sample.stickY == 0.0 || r.shifter == Off then s.drive
                       else SquareInputs(sample.stickY, sample.stickX, r.shifter)
    ensures r == s.(drive := r.drive, shifter := r.shifter)
  {
    var shifter := AutoShift(s.shifter, sample.stickY);
    var command := SquareInputs(sample.stickY, sample.stickX, shifter);
    s.(shifter := shifter, drive := if command.Some? then command else s.drive)
  }

  function ArmHandler(s: RobotState, sample: Inputs): (r: RobotState)
    ensures r.armMotor == ArmOutput(sample.armY, sample.voltage)
    ensures r.claws == ClawStep(s.claws, sample.clawOneLock, sample.clawOneUnlock,
                                sample.clawTwoLock, sample.clawTwoUnlock)
    ensures r == s.(armMotor := r.armMotor, claws := r.claws)
  {
    s.(armMotor := ArmOutput(sample.armY, sample.voltage),
       claws := ClawStep(s.claws, sample.clawOneLock, sample.clawOneUnlock,
                         sample.clawTwoLock, sample.clawTwoUnlock))
  }

  /** One loop iteration: collector, manual drive, arm, shooter, in that
      order. The drive and arm handlers never touch the interlock, and the
      interlock holds after each of its two handlers. */
  function Cycle(s: RobotState, sample: Inputs): (r: RobotState)
    ensures r.mech == ShooterStep(CollectorStep(s.mech, sample.collectorFwd, sample.collectorRev),
                                  sample.shooterButton, sample.indexSwitch)
    ensures r.shifter == ManualShift(s.shifter, sample.shift)
    ensures r.armMotor == ArmOutput(sample.armY, sample.voltage)
    ensures r.claws == ClawStep(s.claws, sample.clawOneLock, sample.clawOneUnlock,
                                sample.clawTwoLock, sample.clawTwoUnlock)
    ensures r.drive == Some(DriveCommand(sample.stickY, sample.stickX))
    ensures Safe(s) ==> Exclusive(CollectorHandler(s, sample).mech)
    ensures Safe(s) ==> Safe(r)
  {
    var afterCollector := CollectorHandler(s, sample);
    var afterDrive := ManualDriverHandler(afterCollector, sample);
    var afterArm := ArmHandler(afterDrive, sample);
    ShooterHandler(afterArm, sample)
  }

  /** The state after running one cycle per sample, in order. */
  function Run(s: RobotState, samples: seq<Inputs>): (r: RobotState)
    ensures samples == [] ==> r == s
    ensures |samples| == 1 ==> r == Cycle(s, samples[0])
    decreases |samples|
  {
    if samples == [] then s
    else Cycle(Run(s, samples[..|samples| - 1]), samples[|samples| - 1])
  }

  /** Running two sample sequences one after the other is running their
      concatenation: the cycles are applied one per sample, in order. */
  lemma {:induction false} RunConcat(s: RobotState, first: seq<Inputs>, second: seq<Inputs>)
    ensures Run(s, first + second) == Run(Run(s, first), second)
    decreases |second|
  {
    if second == [] {
      assert first + second == first;
    } else {
      var all := first + second;
      var init := second[..|second| - 1];
      assert all[..|all| - 1] == first + init;
      assert all[|all| - 1] == second[|second| - 1];
      RunConcat(s, first, init);
    }
  }

  /** The safety invariant holds after any number of cycles. */
  lemma {:induction false} RunSafe(s: RobotState, samples: seq<Inputs>)
    requires Safe(s)
    ensures Safe(Run(s, samples))
    decreases |samples|
  {
    if samples != [] {
      RunSafe(s, samples[..|samples| - 1]);
    }
  }

  /** From power-on, through entering teleop and any sequence of cycles, the
      collector and the shooter never run together, and the collector motor
      and the shooter or indexer motor are never both commanded to move. */
  lemma TeleopNeverRunsBoth(samples: seq<Inputs>)
    ensures Exclusive(Run(Start(Constructed()), samples).mech)
    ensures var m := Run(Start(Constructed()), samples).mech;
      !(m.collectorMotor != 0.0 && (m.shooterMotor != 0.0 || m.indexerMotor != 0.0))
  {
    RunSafe(Start(Constructed()), samples);
    NoSimultaneousCommands(Run(Start(Constructed()), samples).mech);
  }

  /** Once the shooter runs, cycles without an index-switch Closed leave the
      whole mechanism exactly as it was: the shooter keeps running whatever
      the shooter button does, and the collector ignores its buttons. */
  lemma {:induction false} ShooterRunsUntilIndexSwitch(s: RobotState, samples: seq<Inputs>)
    requires s.mech.shooterRunning
    requires forall i :: 0 <= i < |samples| ==> samples[i].indexSwitch != Closed
    ensures Run(s, samples).mech == s.mech
    decreases |samples|
  {
    if samples != [] {
      var prefix := samples[..|samples| - 1];
      forall i | 0 <= i < |prefix|
        ensures prefix[i].indexSwitch != Closed
      {
        assert prefix[i] == samples[i];
      }
      ShooterRunsUntilIndexSwitch(s, prefix);
    }
  }

  /** The shooter never starts in a cycle whose collector button press is
      handled first: a same-cycle collector-forward Closed wins over a
      shooter-button Closed. */
  lemma CollectorWinsSameCycle(s: RobotState, sample: Inputs)
    requires !s.mech.collectorRunning && !s.mech.shooterRunning
    requires sample.collectorFwd == Closed && sample.shooterButton == Closed
    ensures Cycle(s, sample).mech.collectorRunning
    ensures !Cycle(s, sample).mech.shooterRunning
  {
  }

  /** The collector-then-shooter walk-through: collector forward pressed,
      shooter pressed (ignored), collector released, shooter pressed, disk
      reaches the index switch. */
  lemma CollectorShooterScenario(x: real, y: real, armY: real, v: real)
    ensures
      var quiet := Inputs(NoEvent, NoEvent, NoEvent, NoEvent, NoEvent, NoEvent, NoEvent,
                          NoEvent, NoEvent, x, y, armY, v);
      var s0 := Start(Constructed());
      var s1 := Cycle(s0, quiet.(collectorFwd := Closed));
      var s2 := Cycle(s1, quiet.(shooterButton := Closed));
      var s3 := Cycle(s2, quiet.(collectorFwd := Opened));
      var s4 := Cycle(s3, quiet.(shooterButton := Closed));
      var s5 := Cycle(s4, quiet.(indexSwitch := Closed));
      && s1.mech == Mechanism(true, false, 1.0, 0.0, 0.0)
      && s2.mech == s1.mech
      && s3.mech == Stopped
      && s4.mech == Mechanism(false, true, 0.0, -0.5, -0.5)
      && s5.mech == Stopped
  {
  }
}
