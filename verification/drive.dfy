/** Gear shifting and the squared drive throttle. */
module Drive {
  import opened Types

  /** Manual shifting: the shift button's Closed event selects high gear
      (Forward), its Opened event low gear (Reverse); no event, no change. */
  function ManualShift(shifter: Position, shift: Event): (r: Position)
    ensures shift == Closed ==> r == Forward
    ensures shift == Opened ==> r == Reverse
    ensures r != shifter ==> shift != NoEvent
  {
    if shift == Closed then Forward
    else if shift == Opened then Reverse
    else shifter
  }

  /** Automatic shifting on the drive stick's Y axis (negative is forward).
      Low gear shifts up below -0.25; any other position (high gear, or a
      solenoid still Off) shifts down above -0.2. */
  function AutoShift(shifter: Position, y: real): (r: Position)
    ensures r == shifter || r == Forward || r == Reverse
    ensures shifter == Reverse ==> (r == Forward <==> y < -0.25)
    ensures shifter == Reverse ==> (r == Reverse <==> y >= -0.25)
    ensures shifter != Reverse ==> (r == Reverse <==> y > -0.2)
    ensures shifter != Reverse && y <= -0.2 ==> r == shifter
  {
    if shifter == Reverse then
      if y < -0.25 then Forward else Reverse
    else if y > -0.2 then Reverse
    else shifter
  }

  /** Inside the band [-0.25, -0.2] no gear ever changes: the hysteresis that
      keeps the shifter from chattering. */
  lemma AutoShiftHysteresis(shifter: Position, y: real)
    requires -0.25 <= y <= -0.2
    ensures AutoShift(shifter, y) == shifter
  {
  }

  /** Holding the stick still, a second evaluation never shifts again. */
  lemma AutoShiftSettles(shifter: Position, y: real)
    ensures AutoShift(AutoShift(shifter, y), y) == AutoShift(shifter, y)
  {
  }

  /** Starting in low gear: -0.3 shifts up, then -0.1 shifts back down; in
      high gear -0.22 lies inside the band and shifts nothing. */
  lemma AutoShiftWalkthrough()
    ensures AutoShift(Reverse, -0.3) == Forward
    ensures AutoShift(Forward, -0.1) == Reverse
    ensures AutoShift(Forward, -0.22) == Forward
  {
  }

  /** The gain applied to the squared axis: 4 in low gear, 1 in high gear. */
  function Gain(shifter: Position): real
    requires shifter != Off
  {
    if shifter == Reverse then 4.0 else 1.0
  }

  /** The stick value times itself. */
  function Square(y: real): (s: real)
    ensures s >= 0.0
  {
    y * y
  }

  /** The arcade-drive arguments issued for stick axes (y, x) in gear
      `shifter`, or None when no command is issued at all. */
  function SquareInputs(y: real, x: real, shifter: Position): (r: Option<DriveCommand>)
    ensures r.None? <==> y == 0.0 || shifter == Off
    ensures r.Some? ==> r.value.rotate == x
  {
    if y < 0.0 then
      match shifter
      case Reverse => Some(DriveCommand(Square(y) * -4.0, x))
      case Forward => Some(DriveCommand(Square(y) * -1.0, x))
      case Off => None
    else if y > 0.0 then
      match shifter
      case Reverse => Some(DriveCommand(Square(y) * 4.0, x))
      case Forward => Some(DriveCommand(Square(y) * 1.0, x))
      case Off => None
    else None
  }

  /** Whenever a command is issued, the throttle has the sign of the stick
      and the magnitude of its square times the gear's gain. */
  lemma SquareInputsThrottle(y: real, x: real, shifter: Position)
    requires y != 0.0 && shifter != Off
    ensures SquareInputs(y, x, shifter).value.move < 0.0 <==> y < 0.0
    ensures SquareInputs(y, x, shifter).value.move > 0.0 <==> y > 0.0
    ensures Abs(SquareInputs(y, x, shifter).value.move) == Gain(shifter) * Square(y)
  {
    SquarePositive(y);
  }

  /** Squaring finer-grains the low end: on the unit stick range the
      throttle never exceeds the gain times the linear throttle. */
  lemma SquareInputsBelowLinear(y: real, x: real, shifter: Position)
    requires -1.0 <= y <= 1.0 && y != 0.0 && shifter != Off
    ensures Abs(SquareInputs(y, x, shifter).value.move) <= Gain(shifter) * Abs(y)
  {
    SquareInputsThrottle(y, x, shifter);
    SquareNegated(y);
    SquareAtMost(Abs(y));
  }

  /** Pushing the stick further in one direction never lowers the throttle
      in that direction: the throttle is strictly increasing in y. */
  lemma SquareInputsMonotone(y1: real, y2: real, x: real, shifter: Position)
    requires y1 < y2 && y1 != 0.0 && y2 != 0.0 && shifter != Off
    ensures SquareInputs(y1, x, shifter).value.move < SquareInputs(y2, x, shifter).value.move
  {
    SquareInputsThrottle(y1, x, shifter);
    SquareInputsThrottle(y2, x, shifter);
    if 0.0 < y1 {
      SquareIncreasing(y1, y2);
    } else if y2 < 0.0 {
      SquareIncreasing(-y2, -y1);
      SquareNegated(y1);
      SquareNegated(y2);
    }
  }

  /** Full forward stick (y = -1) in low gear yields -4.0, in high gear -1.0, and
      a centred stick issues nothing. */
  lemma FullStickThrottle(x: real)
    ensures SquareInputs(-1.0, x, Reverse) == Some(DriveCommand(-4.0, x))
    ensures SquareInputs(-1.0, x, Forward) == Some(DriveCommand(-1.0, x))
    ensures SquareInputs(0.0, x, Reverse) == None
  {
  }

  lemma MulNonNegative(a: real, b: real)
    requires a >= 0.0 && b >= 0.0
    ensures a * b >= 0.0
  {
  }

  lemma SquareIncreasing(a: real, b: real)
    requires 0.0 <= a < b
    ensures Square(a) < Square(b)
  {
    var p, q, r := a * a, a * b, b * b;
    assert p <= q;
    assert q < r;
  }

  lemma SquareNegated(y: real)
    ensures Square(-y) == Square(y)
  {
  }

  lemma SquarePositive(y: real)
    requires y != 0.0
    ensures Square(y) > 0.0
  {
    if y > 0.0 {
      SquareIncreasing(0.0, y);
    } else {
      SquareIncreasing(0.0, -y);
      SquareNegated(y);
    }
  }

  lemma SquareAtMost(a: real)
    requires 0.0 <= a <= 1.0
    ensures Square(a) <= a
  {
    MulNonNegative(a, 1.0 - a);
    assert a * (1.0 - a) == a - a * a;
  }
}
