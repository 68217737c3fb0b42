/** The teleop control object: its fields are updated in place by one
    handler per subsystem, and its teleop loop calls them in a fixed order. */
module Robot {
  import opened Types
  import opened Interlock
  import Drive
  import Arm
  import opened Teleop

  class RobotDemo {
    // interlock flags
    var collectorMotorRunning: bool
    var shooterMotorRunning: bool
    // motor commands
    var collectorMotor: real
    var indexerMotor: real
    var shooterMotor: real
    var armMotor: real
    // solenoid positions
    var shifter: Position
    var greenClaw: Position
    var yellowClaw: Position
    // arguments of the most recent arcade-drive call
    var drive: Option<DriveCommand>

    /** The abstract value of the object. */
    ghost function State(): RobotState
      reads this
    {
      RobotState(Mechanism(collectorMotorRunning, shooterMotorRunning,
                      collectorMotor, shooterMotor, indexerMotor),
            shifter, Arm.Claws(greenClaw, yellowClaw), armMotor, drive)
    }

    ghost predicate Valid()
      reads this
    {
      Safe(State())
    }

    constructor ()
      ensures State() == Constructed()
      ensures Valid()
    {
      collectorMotorRunning := false;
      shooterMotorRunning := false;
      collectorMotor, indexerMotor, shooterMotor, armMotor := 0.0, 0.0, 0.0, 0.0;
      shifter := Reverse;
      greenClaw, yellowClaw := Off, Off;
      drive := None;
    }

    method HandleDriverInputsManual(sample: Inputs)
      modifies this
      ensures State() == ManualDriverHandler(old(State()), sample)
      ensures old(Valid()) ==> Valid()
    {
      drive := Some(DriveCommand(sample.stickY, sample.stickX));
      if sample.shift == Closed {
        // high gear
        shifter := Forward;
      } else if sample.shift == Opened {
        // low gear
        shifter := Reverse;
      }
    }

    method HandleDriverInputsAutomatic(sample: Inputs)
      modifies this
      ensures State() == AutomaticDriverHandler(old(State()), sample)
      ensures old(Valid()) ==> Valid()
    {
      if shifter == Reverse {
        if sample.stickY < -0.25 {
          shifter := Forward;
        }
      } else if sample.stickY > -0.2 {
        shifter := Reverse;
      }
      SquareInputs(sample);
    }

    /** Hands the squared stick to arcade drive in the current gear, or
        issues nothing when the stick is centred or the shifter is Off. */
    method SquareInputs(sample: Inputs)
      modifies this`drive
      ensures var command := Drive.SquareInputs(sample.stickY, sample.stickX, shifter);
        drive == if command.Some? then command else old(drive)
    {
      var y, x := sample.stickY, sample.stickX;
      if y < 0.0 {
        if shifter == Reverse {
          drive := Some(DriveCommand(Drive.Square(y) * -4.0, x));
        } else if shifter == Forward {
          drive := Some(DriveCommand(Drive.Square(y) * -1.0, x));
        }
      } else if y > 0.0 {
        if shifter == Reverse {
          drive := Some(DriveCommand(Drive.Square(y) * 4.0, x));
        } else if shifter == Forward {
          drive := Some(DriveCommand(Drive.Square(y) * 1.0, x));
        }
      }
    }

    method HandleArmInputs(sample: Inputs)
      modifies this
      ensures State() == ArmHandler(old(State()), sample)
      ensures old(Valid()) ==> Valid()
    {
      if sample.armY < -0.1 {
        if sample.voltage < 4.5 {
          armMotor := 1.0;
        } else {
          armMotor := 0.0;
        }
      } else if sample.armY > 0.1 {
        if sample.voltage > 0.5 {
          armMotor := -1.0;
        } else {
          armMotor := 0.0;
        }
      } else {
        armMotor := 0.0;
      }
      if sample.clawOneLock == Closed {
        greenClaw := Forward;
      } else if sample.clawOneUnlock == Closed {
        greenClaw := Reverse;
      } else if sample.clawTwoLock == Closed {
        yellowClaw := Forward;
      } else if sample.clawTwoUnlock == Closed {
        yellowClaw := Reverse;
      }
    }

    method HandleCollectorInputs(sample: Inputs)
      modifies this
      ensures State() == CollectorHandler(old(State()), sample)
      ensures old(Valid()) ==> Valid()
      ensures !(old(collectorMotorRunning) && old(shooterMotorRunning)) ==>
                !(collectorMotorRunning && shooterMotorRunning)
    {
      if !shooterMotorRunning {
        if sample.collectorFwd == Closed {
          collectorMotor := 1.0;
          collectorMotorRunning := true;
        } else if sample.collectorFwd == Opened {
          collectorMotor := 0.0;
          collectorMotorRunning := false;
        } else if sample.collectorRev == Closed {
          collectorMotor := -1.0;
          collectorMotorRunning := true;
        } else if sample.collectorRev == Opened {
          collectorMotor := 0.0;
          collectorMotorRunning := false;
        }
      }
    }

    method HandleShooterInputs(sample: Inputs)
      modifies this
      ensures State() == ShooterHandler(old(State()), sample)
      ensures old(Valid()) ==> Valid()
      ensures !(old(collectorMotorRunning) && old(shooterMotorRunning)) ==>
                !(collectorMotorRunning && shooterMotorRunning)
    {
      if !collectorMotorRunning && !shooterMotorRunning {
        if sample.shooterButton == Closed {
          shooterMotor := -0.5;
          indexerMotor := -0.5;
          shooterMotorRunning := true;
        }
      } else {
        if sample.indexSwitch == Closed {
          indexerMotor := 0.0;
          shooterMotor := 0.0;
          shooterMotorRunning := false;
        }
      }
    }

    /** The teleop loop over the given per-cycle samples: set the solenoids'
        initial positions, then run the four handlers once per sample. */
    method OperatorControl(samples: seq<Inputs>)
      requires Valid()
      modifies this
      ensures State() == Run(Start(old(State())), samples)
      ensures Valid()
    {
      shifter := Reverse;
      greenClaw := Reverse;
      yellowClaw := Reverse;
      ghost var start := State();
      assert start == Start(old(State()));
      var i := 0;
      while i < |samples|
        invariant 0 <= i <= |samples|
        invariant State() == Run(start, samples[..i])
        invariant Valid()
      {
        ghost var before := State();
        HandleCollectorInputs(samples[i]);
        HandleDriverInputsManual(samples[i]);
        HandleArmInputs(samples[i]);
        HandleShooterInputs(samples[i]);
        assert samples[..i + 1][..i] == samples[..i];
        assert State() == Cycle(before, samples[i]);
        i := i + 1;
      }
      assert samples[..|samples|] == samples;
    }
  }
}
