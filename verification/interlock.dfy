/** The collector/shooter interlock: two running flags and the three motor
    commands they guard. The collector and the shooter must never run together. */
module Interlock {
  import opened Types

  /** The part of the robot's state the interlock owns. */
  datatype Mechanism = Mechanism(
    collectorRunning: bool,
    shooterRunning: bool,
    collectorMotor: real,
    shooterMotor: real,
    indexerMotor: real)

  /** Both flags false and every motor commanded to 0. */
  const Stopped := Mechanism(false, false, 0.0, 0.0, 0.0)

  /** The safety property: never both running. */
  predicate Exclusive(m: Mechanism) {
    !(m.collectorRunning && m.shooterRunning)
  }

  /** The invariant the handlers keep: exclusion, each flag agrees with its
      motor commands, and the collector motor is one of its three speeds. */
  predicate Consistent(m: Mechanism) {
    && Exclusive(m)
    && (m.collectorRunning <==> m.collectorMotor != 0.0)
    && (m.collectorMotor == 1.0 || m.collectorMotor == 0.0 || m.collectorMotor == -1.0)
    && (m.shooterRunning ==> m.shooterMotor == -0.5 && m.indexerMotor == -0.5)
    && (!m.shooterRunning ==> m.shooterMotor == 0.0 && m.indexerMotor == 0.0)
  }

  /** One call of the collector handler, given this cycle's events of the
      collector-forward and collector-reverse buttons. */
  function CollectorStep(m: Mechanism, fwd: Event, rev: Event): (r: Mechanism)
    // nothing changes while the shooter runs
    ensures m.shooterRunning ==> r == m
    // the shooter side is never touched
    ensures r.shooterRunning == m.shooterRunning
    ensures r.shooterMotor == m.shooterMotor && r.indexerMotor == m.indexerMotor
    // first match wins: fwd Closed, fwd Opened, rev Closed, rev Opened
    ensures !m.shooterRunning && fwd == Closed ==> r.collectorMotor == 1.0 && r.collectorRunning
    ensures !m.shooterRunning && fwd == Opened ==> r.collectorMotor == 0.0 && !r.collectorRunning
    ensures !m.shooterRunning && fwd == NoEvent && rev == Closed ==>
              r.collectorMotor == -1.0 && r.collectorRunning
    ensures !m.shooterRunning && fwd == NoEvent && rev == Opened ==>
              r.collectorMotor == 0.0 && !r.collectorRunning
    ensures fwd == NoEvent && rev == NoEvent ==> r == m
    // whenever it writes, the flag is true exactly when the motor command is nonzero
    ensures r == m || (r.collectorRunning <==> r.collectorMotor != 0.0)
    ensures Exclusive(m) ==> Exclusive(r)
    ensures Consistent(m) ==> Consistent(r)
  {
    if m.shooterRunning then m
    else if fwd == Closed then m.(collectorMotor := 1.0, collectorRunning := true)
    else if fwd == Opened then m.(collectorMotor := 0.0, collectorRunning := false)
    else if rev == Closed then m.(collectorMotor := -1.0, collectorRunning := true)
    else if rev == Opened then m.(collectorMotor := 0.0, collectorRunning := false)
    else m
  }

  /** One call of the shooter handler, given this cycle's events of the shooter
      button and of the index switch. */
  function ShooterStep(m: Mechanism, button: Event, indexSwitch: Event): (r: Mechanism)
    // the collector side is never touched
    ensures r.collectorRunning == m.collectorRunning && r.collectorMotor == m.collectorMotor
    // the shooter starts only on a button Closed while both flags are false
    ensures !m.shooterRunning && r.shooterRunning <==>
              !m.collectorRunning && !m.shooterRunning && button == Closed
    ensures !m.shooterRunning && r.shooterRunning ==>
              r.shooterMotor == -0.5 && r.indexerMotor == -0.5
    // an idle mechanism without a button Closed is left exactly as it was
    ensures !m.collectorRunning && !m.shooterRunning && button != Closed ==> r == m
    // it stops only on an index-switch Closed; the button is then irrelevant
    ensures m.shooterRunning && !r.shooterRunning <==> m.shooterRunning && indexSwitch == Closed
    ensures m.shooterRunning && indexSwitch != Closed ==> r == m
    ensures m.shooterRunning && indexSwitch == Closed ==>
              r.shooterMotor == 0.0 && r.indexerMotor == 0.0
    // while only the collector runs, an index-switch Closed still zeroes both
    // motors, and the flags stay as they were
    ensures m.collectorRunning && !m.shooterRunning ==>
              !r.shooterRunning &&
              (if indexSwitch == Closed then r == m.(shooterMotor := 0.0, indexerMotor := 0.0)
               else r == m)
    ensures Exclusive(m) ==> Exclusive(r)
    ensures Consistent(m) ==> Consistent(r)
  {
    if !m.collectorRunning && !m.shooterRunning then
      if button == Closed then m.(shooterMotor := -0.5, indexerMotor := -0.5, shooterRunning := true)
      else m
    else
      if indexSwitch == Closed then m.(indexerMotor := 0.0, shooterMotor := 0.0, shooterRunning := false)
      else m
  }

  /** A consistent mechanism never commands the collector and the shooter or
      indexer to move at the same time. */
  lemma NoSimultaneousCommands(m: Mechanism)
    requires Consistent(m)
    ensures !(m.collectorMotor != 0.0 && (m.shooterMotor != 0.0 || m.indexerMotor != 0.0))
  {
  }
}
