/** Normalized gripper positions: how they are read from and turned back into a
    joint angle (`DeviceEffector`), and the Robotiq register values. */
module Gripper {
  import opened Wrappers
  import opened Reals

  /** The limits of the effector joint, in relative radians.  An explicit normalized
      range, when configured, replaces the raw limits and disables the safety margin. */
  datatype Limits = Limits(rawMin: real, rawMax: real, range: Option<(real, real)>, margin: real, openAtMin: bool) {
    function PosMin(): real { if range.Some? then range.value.0 else rawMin }
    function PosMax(): real { if range.Some? then range.value.1 else rawMax }
    /** The margin that is applied: none with an explicit range, none when negative. */
    function Margin(): real { if range.Some? || margin < 0.0 then 0.0 else margin }
    /** A margin that would collapse the range is dropped. */
    predicate Collapses() { PosMax() - Margin() <= PosMin() }
  }

  function Clamp(x: real, lo: real, hi: real): real { if x > hi then hi else if x < lo then lo else x }

  /** `get_normalized_gripper_position`, given the angle (if it could be read). */
  function ReadNormalized(l: Limits, angle: Option<real>): real {
    if angle.None? then 0.0
    else if l.PosMax() - l.PosMin() <= 0.0 then 0.0
    else
      var x := (Clamp(angle.value, l.PosMin(), l.PosMax()) - l.PosMin()) / (l.PosMax() - l.PosMin());
      if l.openAtMin then 1.0 - x else x
  }

  /** `get_gripper_pos_rad_relative_from_normalized` of a finite value. */
  function ToAngle(l: Limits, normalized: real): real {
    var n := Clamp(normalized, 0.0, 1.0);
    var top := if l.Collapses() then l.rawMax else l.PosMax() - l.Margin();
    if top - l.PosMin() <= 0.0 then 0.0
    else Part(if l.openAtMin then 1.0 - n else n, top - l.PosMin()) + l.PosMin()
  }

  /** The part of the travel that commands use. */
  function Used(l: Limits): real
    requires l.PosMin() < l.PosMax()
  {
    if l.Collapses() then 1.0 else (l.PosMax() - l.PosMin() - l.Margin()) / (l.PosMax() - l.PosMin())
  }

  /** A collapsing margin is dropped only on raw limits; explicit ranges have no margin. */
  lemma TopOfTravel(l: Limits)
    requires l.PosMin() < l.PosMax()
    ensures var top := if l.Collapses() then l.rawMax else l.PosMax() - l.Margin();
            l.PosMin() < top <= l.PosMax() && top - l.PosMin() == Used(l) * (l.PosMax() - l.PosMin())
    ensures 0.0 < Used(l) <= 1.0
  {
    var width := l.PosMax() - l.PosMin();
    DivMul(width - l.Margin(), width);
    if !l.Collapses() {
      DivPositive(width - l.Margin(), width);
      DivMono(width - l.Margin(), width, width);
      MulDiv(1.0, width);
    }
  }

  /** Every finite command lands inside the calibrated range. */
  lemma CommandStaysInRange(l: Limits, normalized: real)
    requires l.PosMin() < l.PosMax()
    ensures l.PosMin() <= ToAngle(l, normalized) <= l.PosMax()
  {
    hide Used, Part;
    TopOfTravel(l);
    var top := if l.Collapses() then l.rawMax else l.PosMax() - l.Margin();
    var n := Clamp(normalized, 0.0, 1.0);
    PartOfWay(if l.openAtMin then 1.0 - n else n, top - l.PosMin());
  }

  /** The command as a share of the whole travel. */
  lemma CommandInTravel(l: Limits, normalized: real)
    requires l.PosMin() < l.PosMax()
    ensures var n := Clamp(normalized, 0.0, 1.0);
            (ToAngle(l, normalized) - l.PosMin()) / (l.PosMax() - l.PosMin())
              == Part(if l.openAtMin then 1.0 - n else n, Used(l))
  {
    hide Used, Part;
    TopOfTravel(l);
    var n := Clamp(normalized, 0.0, 1.0);
    var top := if l.Collapses() then l.rawMax else l.PosMax() - l.Margin();
    Fraction(if l.openAtMin then 1.0 - n else n, Used(l), top - l.PosMin(), l.PosMax() - l.PosMin());
  }

  lemma Fraction(m: real, used: real, way: real, width: real)
    requires width > 0.0 && way == used * width
    ensures Part(m, way) / width == Part(m, used)
  {
    assert m * (used * width) == (m * used) * width;
    MulDiv(m * used, width);
  }

  /** Commanding a value and reading it back contracts the travel toward the minimum end by
      exactly the share the margin takes away, for both polarities. */
  lemma CommandThenRead(l: Limits, normalized: real)
    requires l.PosMin() < l.PosMax()
    ensures var n := Clamp(normalized, 0.0, 1.0);
            ReadNormalized(l, Some(ToAngle(l, normalized)))
              == if l.openAtMin then 1.0 - Part(1.0 - n, Used(l)) else Part(n, Used(l))
  {
    hide Used, Part, ToAngle;
    CommandStaysInRange(l, normalized);
    CommandInTravel(l, normalized);
  }

  /** On [0, 1] the round trip is the identity exactly when no margin is in force. */
  lemma RoundTripIsIdentity(l: Limits)
    requires l.PosMin() < l.PosMax()
    ensures (forall n: real :: 0.0 <= n <= 1.0 ==> ReadNormalized(l, Some(ToAngle(l, n))) == n)
       <==> l.Margin() == 0.0 || l.Collapses()
  {
    hide ReadNormalized, ToAngle;
    var width := l.PosMax() - l.PosMin();
    if l.Margin() == 0.0 || l.Collapses() {
      assert Used(l) == 1.0 by { MulDiv(1.0, width); }
      forall n: real | 0.0 <= n <= 1.0 ensures ReadNormalized(l, Some(ToAngle(l, n))) == n {
        CommandThenRead(l, n);
      }
    } else {
      var n := if l.openAtMin then 0.0 else 1.0;
      CommandThenRead(l, n);
      DivMul(width - l.Margin(), width);
      assert Used(l) != 1.0;
      assert ReadNormalized(l, Some(ToAngle(l, n))) != n;
    }
  }

  /** What the margin in force is: the configured one, unless it is negative or a normalized range
      replaces the raw limits. */
  lemma MarginInForce(l: Limits)
    ensures l.range.Some? ==> l.Margin() == 0.0 && l.PosMin() == l.range.value.0 && l.PosMax() == l.range.value.1
    ensures l.range.None? ==> l.Margin() == Max(0.0, l.margin) && l.PosMin() == l.rawMin && l.PosMax() == l.rawMax
    ensures l.range.None? && l.rawMin < l.rawMax ==> (l.Collapses() <==> l.margin >= l.rawMax - l.rawMin)
  {
  }

  /** A gripper that cannot be read, or has no travel, reads as zero, whatever its polarity; without
      travel every command goes to the angle zero. */
  lemma NoReading(l: Limits, normalized: real, angle: Option<real>)
    ensures angle.None? || l.PosMax() <= l.PosMin() ==> ReadNormalized(l, angle) == 0.0
    ensures l.PosMax() <= l.PosMin() && l.rawMax <= l.PosMin() ==> ToAngle(l, normalized) == 0.0
  {
  }

  // ----- Robotiq registers -----

  /** C's `lround` of a non-negative value. */
  function Round(x: real): int
    requires x >= 0.0
  {
    (x + 0.5).Floor
  }

  type Register = r: int | 0 <= r < 256

  function RegisterValue(position: real, open: Register, closed: Register): (value: real)
    requires 0.0 <= position <= 1.0
    ensures Min(open as real, closed as real) <= value <= Max(open as real, closed as real)
  {
    hide Part;
    PartOfWay(position, closed as real - open as real);
    closed as real - Part(position, closed as real - open as real)
  }

  lemma RoundStaysBetween(lo: nat, x: real, hi: nat)
    requires lo as real <= x <= hi as real
    ensures lo <= Round(x) <= hi
  {
  }

  function PositionToRaw(position: real, open: Register, closed: Register): (raw: int)
    ensures open <= raw <= closed || closed <= raw <= open
  {
    hide RegisterValue, Round;
    RoundStaysBetween(if open <= closed then open else closed,
                      RegisterValue(Clamp(position, 0.0, 1.0), open, closed),
                      if open <= closed then closed else open);
    Round(RegisterValue(Clamp(position, 0.0, 1.0), open, closed))
  }

  function RawToPosition(raw: Register, open: Register, closed: Register): real {
    if closed <= open then 0.0
    else Clamp((closed - raw) as real / (closed - open) as real, 0.0, 1.0)
  }

  /** A register value survives the trip through the normalized position up to clamping,
      so exactly the values between the two end stops survive unchanged. */
  lemma RawRoundTrip(raw: Register, open: Register, closed: Register)
    requires open < closed
    ensures var back := PositionToRaw(RawToPosition(raw, open, closed), open, closed);
            back == (if raw < open then open else if raw > closed then closed else raw)
  {
    var width := (closed - open) as real;
    var way := (closed - raw) as real;
    DivMul(way, width);
    Share(way, width);
  }

  lemma Share(way: real, width: real)
    requires width > 0.0
    ensures Clamp(way / width, 0.0, 1.0) * width == Clamp(way, 0.0, width)
  {
    var q := way / width;
    DivMul(way, width);
    if q > 1.0 {
      MulMono(1.0, q, width);
    } else if q < 0.0 {
      MulPositive(-q, width);
      assert (-q) * width == -way;
    } else {
      MulMono(q, 1.0, width);
      ProductOfNonNegatives(q, width);
    }
  }

  /** A position survives the trip through a register up to half a register step. */
  lemma PositionRoundTrip(position: real, open: Register, closed: Register)
    requires open < closed && 0.0 <= position <= 1.0
    ensures var back := RawToPosition(PositionToRaw(position, open, closed), open, closed);
            Abs(back - position) <= 0.5 / (closed - open) as real
  {
    var width := (closed - open) as real;
    var way := (closed - PositionToRaw(position, open, closed)) as real;
    var back := RawToPosition(PositionToRaw(position, open, closed), open, closed);
    Share(way, width);
    assert back * width == way;
    assert Abs(way - position * width) <= 0.5;
    assert (back - position) * width == back * width - position * width;
    AbsOfQuotient(back - position, width, 0.5);
  }

  lemma AbsOfQuotient(x: real, width: real, bound: real)
    requires width > 0.0 && Abs(x * width) <= bound
    ensures Abs(x) <= bound / width
  {
    DivMul(bound, width);
    MulLess(x, bound / width, width);
    assert (-x) * width == -(x * width);
    MulLess(-x, bound / width, width);
  }
}
