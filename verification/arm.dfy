/** The arm motor's bang-bang control and the two claw locks. */
module Arm {
  import opened Types

  /** The arm motor command for gamepad left-stick Y value `y` (negative
      raises) and arm-rotation potentiometer voltage `v`: full speed while
      outside the ±0.1 deadband, unless the voltage guard for that direction
      (4.5 V going up, 0.5 V going down) has been reached. */
  function ArmOutput(y: real, v: real): (r: real)
    ensures r == 1.0 || r == 0.0 || r == -1.0
    ensures r == 1.0 <==> y < -0.1 && v < 4.5
    ensures r == -1.0 <==> y > 0.1 && v > 0.5
    ensures -0.1 <= y <= 0.1 ==> r == 0.0
  {
    if y < -0.1 then
      if v < 4.5 then 1.0 else 0.0
    else if y > 0.1 then
      if v > 0.5 then -1.0 else 0.0
    else 0.0
  }

  /** The arm never drives up past the upper guard nor down past the lower
      one, whatever the stick says. */
  lemma ArmRespectsLimits(y: real, v: real)
    ensures v >= 4.5 ==> ArmOutput(y, v) != 1.0
    ensures v <= 0.5 ==> ArmOutput(y, v) != -1.0
  {
  }

  /** The positions of the green (claw 1) and yellow (claw 2) claw solenoids;
      Forward is locked, Reverse unlocked. */
  datatype Claws = Claws(green: Position, yellow: Position)

  /** One pass of the claw chain: the first of claw-1-lock, claw-1-unlock,
      claw-2-lock, claw-2-unlock whose button reports Closed sets its claw,
      and no other claw changes. */
  function ClawStep(c: Claws, lock1: Event, unlock1: Event, lock2: Event, unlock2: Event): (r: Claws)
    // at most one claw is set per call
    ensures r.green == c.green || r.yellow == c.yellow
    ensures lock1 == Closed ==> r == c.(green := Forward)
    ensures lock1 != Closed && unlock1 == Closed ==> r == c.(green := Reverse)
    ensures lock1 != Closed && unlock1 != Closed && lock2 == Closed ==> r == c.(yellow := Forward)
    ensures lock1 != Closed && unlock1 != Closed && lock2 != Closed && unlock2 == Closed ==>
              r == c.(yellow := Reverse)
    // without a Closed event nothing moves
    ensures lock1 != Closed && unlock1 != Closed && lock2 != Closed && unlock2 != Closed ==> r == c
  {
    if lock1 == Closed then c.(green := Forward)
    else if unlock1 == Closed then c.(green := Reverse)
    else if lock2 == Closed then c.(yellow := Forward)
    else if unlock2 == Closed then c.(yellow := Reverse)
    else c
  }

  /** A claw only ever moves to the position its own Closed button names;
      Opened events and the other claw's buttons never move it. */
  lemma ClawMovesOnlyOnItsButtons(c: Claws, lock1: Event, unlock1: Event, lock2: Event, unlock2: Event)
    ensures var r := ClawStep(c, lock1, unlock1, lock2, unlock2);
      && (r.green != c.green ==>
            (r.green == Forward && lock1 == Closed) || (r.green == Reverse && unlock1 == Closed))
      && (r.yellow != c.yellow ==>
            (r.yellow == Forward && lock2 == Closed) || (r.yellow == Reverse && unlock2 == Closed))
  {
  }
}
