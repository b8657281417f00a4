/** The angle/value engine of the circular slider: the clamped linear map
    from angles to slider values, its inverse, and the conversion of a
    degree between the eight angle conventions. Numbers are exact reals. */
module Geometry {
  import opened Wrappers

  /** The two errors the engine can throw. */
  datatype Error =
    | InvalidRange         // "endAngle must be greater than startAngle"
    | UnhandledConversion  // the default case of the conversion table

  /** A JavaScript number as far as the engine can produce one: a finite
      value, or the result of dividing by a zero span. */
  datatype Number = Finite(x: real) | NaN | PositiveInfinity | NegativeInfinity

  /** `v` lies between `a` and `b`, in either order. */
  predicate Between(v: real, a: real, b: real) {
    (a <= v <= b) || (b <= v <= a)
  }

  // ---------------------------------------------------------------------
  // angleToValue / valueToAngle
  // ---------------------------------------------------------------------

  /** Maps an angle within [startAngle, endAngle] linearly onto
      [minValue, maxValue]; angles outside the span are clamped. */
  function AngleToValue(angle: real, minValue: real, maxValue: real, startAngle: real, endAngle: real)
    : (r: Result<real, Error>)
    ensures r.Err? <==> endAngle <= startAngle
    ensures r.Err? ==> r.error == InvalidRange
    ensures r.Ok? && angle <= startAngle ==> r.value == minValue
    ensures r.Ok? && angle >= endAngle ==> r.value == maxValue
    ensures r.Ok? && startAngle <= angle <= endAngle ==>
      (r.value - minValue) * (endAngle - startAngle) == (angle - startAngle) * (maxValue - minValue)
    ensures r.Ok? ==> Between(r.value, minValue, maxValue)
  {
    if endAngle <= startAngle then Err(InvalidRange)
    else if angle < startAngle then Ok(minValue)
    else if angle > endAngle then Ok(maxValue)
    else
      var ratio := (angle - startAngle) / (endAngle - startAngle);
      RatioBounds(angle - startAngle, endAngle - startAngle);
      ScaledBetween(ratio, minValue, maxValue);
      Ok(ratio * (maxValue - minValue) + minValue)
  }

  /** Maps a value back onto the angle span, without clamping. With a
      zero value span JavaScript divides by +0, giving NaN or an infinity. */
  function ValueToAngle(value: real, minValue: real, maxValue: real, startAngle: real, endAngle: real)
    : (r: Result<Number, Error>)
    ensures r.Err? <==> endAngle <= startAngle
    ensures r.Err? ==> r.error == InvalidRange
    ensures r.Ok? && minValue != maxValue ==>
      r.value.Finite? &&
      (r.value.x - startAngle) * (maxValue - minValue) == (value - minValue) * (endAngle - startAngle)
    ensures r.Ok? && minValue != maxValue && Between(value, minValue, maxValue) ==>
      startAngle <= r.value.x <= endAngle
    ensures r.Ok? && minValue == maxValue ==>
      r.value == (if value == minValue then NaN
                  else if value > minValue then PositiveInfinity
                  else NegativeInfinity)
  {
    if endAngle <= startAngle then Err(InvalidRange)
    else if maxValue == minValue then
      // (value - minValue) / +0, then scaled by a positive span
      if value == minValue then Ok(NaN)
      else if value > minValue then Ok(PositiveInfinity)
      else Ok(NegativeInfinity)
    else
      var ratio := (value - minValue) / (maxValue - minValue);
      assert Between(value, minValue, maxValue) ==> 0.0 <= ratio <= 1.0 by {
        if Between(value, minValue, maxValue) {
          if minValue < maxValue {
            RatioBounds(value - minValue, maxValue - minValue);
          } else {
            assert ratio == (minValue - value) / (minValue - maxValue);
            RatioBounds(minValue - value, minValue - maxValue);
          }
        }
      }
      ScaledBetween(ratio, startAngle, endAngle);
      Ok(Finite(ratio * (endAngle - startAngle) + startAngle))
  }

  /** A part of a positive whole gives a ratio in [0, 1] that scales back. */
  lemma RatioBounds(part: real, whole: real)
    requires whole > 0.0
    ensures part / whole * whole == part
    ensures 0.0 <= part <= whole ==> 0.0 <= part / whole <= 1.0
  {
  }

  /** Dividing by a non-zero whole and scaling back is the identity. */
  lemma DivScale(part: real, whole: real)
    requires whole != 0.0
    ensures part / whole * whole == part
  {
  }

  /** Scaling by a non-zero factor and dividing by it is the identity. */
  lemma ScaleDiv(ratio: real, whole: real)
    requires whole != 0.0
    ensures ratio * whole / whole == ratio
  {
  }

  /** Dividing by a positive whole preserves order. */
  lemma DivMonotone(a: real, b: real, whole: real)
    requires a <= b && whole > 0.0
    ensures a / whole <= b / whole
  {
    assert b / whole - a / whole == (b - a) / whole;
    assert 0.0 <= (b - a) / whole;
  }

  /** Scaling by a non-negative factor preserves order. */
  lemma MulMonotone(x: real, y: real, factor: real)
    requires x <= y && 0.0 <= factor
    ensures x * factor <= y * factor
  {
    MulNonneg(y - x, factor);
    assert y * factor - x * factor == (y - x) * factor;
  }

  /** The product of two non-negative reals is non-negative. */
  lemma MulNonneg(a: real, b: real)
    requires 0.0 <= a && 0.0 <= b
    ensures 0.0 <= a * b
  {
  }

  /** A ratio in [0, 1] interpolates between the two ends. */
  lemma ScaledBetween(ratio: real, lo: real, hi: real)
    ensures 0.0 <= ratio <= 1.0 ==> Between(ratio * (hi - lo) + lo, lo, hi)
  {
    if 0.0 <= ratio <= 1.0 {
      var w := hi - lo;
      var p := ratio * w;
      assert (1.0 - ratio) * w == w - p;
      if lo <= hi {
        MulNonneg(ratio, w);
        MulNonneg(1.0 - ratio, w);
      } else {
        MulNonneg(ratio, -w);
        MulNonneg(1.0 - ratio, -w);
        assert ratio * (-w) == -p;
        assert (1.0 - ratio) * (-w) == p - w;
      }
    }
  }

  /** The example from the widget's defaults: a quarter turn of a full
      circle is a quarter of 0..100. */
  lemma AngleToValueQuarterTurn()
    ensures AngleToValue(90.0, 0.0, 100.0, 0.0, 360.0) == Ok(25.0)
  {
  }

  /** With an ascending value range, larger angles never give smaller values. */
  lemma {:induction false} AngleToValueMonotone(a1: real, a2: real, minValue: real, maxValue: real, startAngle: real, endAngle: real)
    requires startAngle < endAngle && minValue <= maxValue && a1 <= a2
    ensures AngleToValue(a1, minValue, maxValue, startAngle, endAngle).value
         <= AngleToValue(a2, minValue, maxValue, startAngle, endAngle).value
  {
    var v1 := AngleToValue(a1, minValue, maxValue, startAngle, endAngle).value;
    var v2 := AngleToValue(a2, minValue, maxValue, startAngle, endAngle).value;
    if startAngle <= a1 && a2 <= endAngle {
      var span := endAngle - startAngle;
      var r1 := (a1 - startAngle) / span;
      var r2 := (a2 - startAngle) / span;
      var range := maxValue - minValue;
      DivMonotone(a1 - startAngle, a2 - startAngle, span);
      MulMonotone(r1, r2, range);
      assert v1 == r1 * range + minValue;
      assert v2 == r2 * range + minValue;
    }
  }

  /** Valid span and non-zero value range: the value of an angle in the span
      maps back to that very angle. */
  lemma AngleValueRoundTrip(angle: real, minValue: real, maxValue: real, startAngle: real, endAngle: real)
    requires startAngle < endAngle && minValue != maxValue
    requires startAngle <= angle <= endAngle
    ensures ValueToAngle(AngleToValue(angle, minValue, maxValue, startAngle, endAngle).value,
                         minValue, maxValue, startAngle, endAngle) == Ok(Finite(angle))
  {
    var v := AngleToValue(angle, minValue, maxValue, startAngle, endAngle).value;
    var ratio := (angle - startAngle) / (endAngle - startAngle);
    RatioBounds(angle - startAngle, endAngle - startAngle);
    assert (v - minValue) / (maxValue - minValue) == ratio;
  }

  /** Valid span and non-zero value range: a value in the range maps to an
      angle in the span whose value is that very value. */
  lemma ValueAngleRoundTrip(value: real, minValue: real, maxValue: real, startAngle: real, endAngle: real)
    requires startAngle < endAngle && minValue != maxValue
    requires Between(value, minValue, maxValue)
    ensures ValueToAngle(value, minValue, maxValue, startAngle, endAngle).Ok?
    ensures var a := ValueToAngle(value, minValue, maxValue, startAngle, endAngle).value;
      a.Finite? && startAngle <= a.x <= endAngle &&
      AngleToValue(a.x, minValue, maxValue, startAngle, endAngle) == Ok(value)
  {
    var a := ValueToAngle(value, minValue, maxValue, startAngle, endAngle).value;
    var ratio := (value - minValue) / (maxValue - minValue);
    var span := endAngle - startAngle;
    var range := maxValue - minValue;
    DivScale(value - minValue, range);
    assert a.x - startAngle == ratio * span;
    ScaleDiv(ratio, span);
    assert (a.x - startAngle) / span == ratio;
  }

  // ---------------------------------------------------------------------
  // Angle conventions and convertAngle
  // ---------------------------------------------------------------------

  datatype Dir = CW | CCW
  datatype Axis = PX | NX | PY | NY   // '+x', '-x', '+y', '-y'

  /** A direction of measurement and the axis the degree is measured from. */
  datatype Convention = Convention(direction: Dir, axis: Axis)

  /** The internal convention of the trigonometric functions, and the
      target of a conversion when none is given. */
  const DefaultConvention: Convention := Convention(CCW, PX)

  /** The second character of the axis name (`axis[1]`): the line it lies on. */
  function AxisLetter(a: Axis): char {
    match a
    case PX => 'x'
    case NX => 'x'
    case PY => 'y'
    case NY => 'y'
  }

  /** Euclidean remainder modulo 360: the representative in [0, 360). */
  function Mod360(x: real): (r: real)
    ensures 0.0 <= r < 360.0
    ensures 0.0 <= x < 360.0 ==> r == x
  {
    x - 360.0 * (x / 360.0).Floor as real
  }

  /** JavaScript's `x % 360`: the remainder of truncating division,
      which carries the sign of `x`. */
  function Rem360(x: real): (r: real)
    ensures 0.0 <= x ==> 0.0 <= r < 360.0
    ensures x < 0.0 ==> -360.0 < r <= 0.0
    ensures Mod360(r) == Mod360(x)
  {
    if x >= 0.0 then Mod360(x)
    else
      ModShift(x, ((-x) / 360.0).Floor);
      -Mod360(-x)
  }

  /** Adding whole turns does not change the remainder. */
  lemma ModShift(x: real, k: int)
    ensures Mod360(x + 360.0 * k as real) == Mod360(x)
  {
    var y := x / 360.0;
    assert (x + 360.0 * k as real) / 360.0 == y + k as real;
    FloorShift(y, k);
  }

  /** Floor commutes with adding an integer. */
  lemma FloorShift(y: real, k: int)
    ensures (y + k as real).Floor == y.Floor + k
  {
    var f := y.Floor;
    assert f as real <= y < f as real + 1.0;
    assert (f + k) as real <= y + k as real < (f + k) as real + 1.0;
  }

  /** The 90 or 270 degree shift between perpendicular axes, keyed by the
      target direction, the source axis and the target axis; `None` is the
      table's default case. */
  function QuarterTurn(toDirection: Dir, fromAxis: Axis, toAxis: Axis): (r: Option<real>)
    ensures r.Some? <==> AxisLetter(fromAxis) != AxisLetter(toAxis)
    ensures r.Some? ==> r.value == 90.0 || r.value == 270.0
  {
    match (toDirection, fromAxis, toAxis)
    case (CCW, PX, NY) => Some(90.0)
    case (CCW, NX, PY) => Some(90.0)
    case (CCW, PY, PX) => Some(90.0)
    case (CCW, NY, NX) => Some(90.0)
    case (CW, PY, NX) => Some(90.0)
    case (CW, NY, PX) => Some(90.0)
    case (CW, NX, NY) => Some(90.0)
    case (CW, PX, PY) => Some(90.0)
    case (CCW, PY, NX) => Some(270.0)
    case (CCW, NY, PX) => Some(270.0)
    case (CCW, PX, PY) => Some(270.0)
    case (CCW, NX, NY) => Some(270.0)
    case (CW, PX, NY) => Some(270.0)
    case (CW, NX, PY) => Some(270.0)
    case (CW, PY, PX) => Some(270.0)
    case (CW, NY, NX) => Some(270.0)
    case _ => None
  }

  /** The degree after the direction mirror: `360 - degree`, with 0 kept at 0. */
  function Mirror(degree: real, from: Convention, to: Convention): (r: real)
    ensures from.direction == to.direction ==> r == degree
    ensures from.direction != to.direction ==> Mod360(r) == Mod360(-degree)
    ensures 0.0 <= degree < 360.0 ==> 0.0 <= r < 360.0
  {
    if from.direction != to.direction then
      ModShift(-degree, 1);
      (if degree == 0.0 then 0.0 else 360.0 - degree)
    else degree
  }

  /** Converts a degree measured under convention `from` to one measured
      under `to` (by default the counterclockwise, positive-x convention).
      The default case of the table is never reached. */
  function ConvertAngle(degree: real, from: Convention, to: Option<Convention>): (r: Result<real, Error>)
    ensures r.Ok?
  {
    var target := if to.Some? then to.value else DefaultConvention;
    var d := Mirror(degree, from, target);
    if from.axis == target.axis then Ok(d)
    else if AxisLetter(from.axis) == AxisLetter(target.axis) then Ok(Rem360(180.0 + d))
    else
      match QuarterTurn(target.direction, from.axis, target.axis)
      case Some(shift) => Ok(Rem360(shift + d))
      case None => Err(UnhandledConversion)
  }

  // ---------------------------------------------------------------------
  // A geometric reference for convertAngle
  // ---------------------------------------------------------------------

  /** Where each axis points, in degrees counterclockwise from +x in a
      y-up plane (the plane the trigonometric functions work in). */
  function Bearing(a: Axis): real {
    match a
    case PX => 0.0
    case PY => 90.0
    case NX => 180.0
    case NY => 270.0
  }

  /** The physical angle (counterclockwise from +x) of a degree read in `c`. */
  function Physical(degree: real, c: Convention): real {
    if c.direction == CCW then Bearing(c.axis) + degree else Bearing(c.axis) - degree
  }

  /** How a physical angle reads in convention `c`. */
  function Reading(theta: real, c: Convention): (r: real)
    ensures Physical(r, c) == theta
  {
    if c.direction == CCW then theta - Bearing(c.axis) else Bearing(c.axis) - theta
  }

  /** The reference conversion: the reading in [0, 360) under `to` of the
      physical direction that `degree` denotes under `from`. */
  function Reconvert(degree: real, from: Convention, to: Convention): real {
    Mod360(Reading(Physical(degree, from), to))
  }

  /** The shift the conversion as written applies after mirroring (0 for the same axis,
      180 for the opposite axis, the table otherwise) equals, modulo 360,
      the difference of the axes' bearings as read in the target direction. */
  lemma ShiftMatchesBearings(toDirection: Dir, fromAxis: Axis, toAxis: Axis)
    ensures var offset := if toDirection == CCW then Bearing(fromAxis) - Bearing(toAxis)
                          else Bearing(toAxis) - Bearing(fromAxis);
      var shift := if fromAxis == toAxis then 0.0
                   else if AxisLetter(fromAxis) == AxisLetter(toAxis) then 180.0
                   else QuarterTurn(toDirection, fromAxis, toAxis).value;
      shift == offset || shift == offset + 360.0 || shift == offset - 360.0
  {
  }

  /** For every degree, the conversion as written agrees with the geometric
      reference modulo 360. */
  lemma {:induction false} ConvertAngleCongruent(degree: real, from: Convention, to: Convention)
    ensures Mod360(ConvertAngle(degree, from, Some(to)).value) == Reconvert(degree, from, to)
  {
    var r := ConvertAngle(degree, from, Some(to)).value;
    var d := Mirror(degree, from, to);
    var reading := Reading(Physical(degree, from), to);
    var offset := if to.direction == CCW then Bearing(from.axis) - Bearing(to.axis)
                  else Bearing(to.axis) - Bearing(from.axis);
    var shift := if from.axis == to.axis then 0.0
                 else if AxisLetter(from.axis) == AxisLetter(to.axis) then 180.0
                 else QuarterTurn(to.direction, from.axis, to.axis).value;
    ShiftMatchesBearings(to.direction, from.axis, to.axis);
    // after mirroring, d equals the signed degree up to one whole turn
    var signed := if from.direction == to.direction then degree else -degree;
    var m: int := if from.direction != to.direction && degree != 0.0 then 1 else 0;
    assert d == signed + 360.0 * m as real;
    assert reading == signed + offset;
    assert Mod360(r) == Mod360(shift + d);
    var j: int := if shift == offset then 0 else if shift == offset + 360.0 then 1 else -1;
    assert shift + d == reading + 360.0 * (m + j) as real;
    ModShift(reading, m + j);
  }

  /** A degree in [0, 360) converts to a degree in [0, 360). */
  lemma ConvertAngleInRange(degree: real, from: Convention, to: Convention)
    requires 0.0 <= degree < 360.0
    ensures 0.0 <= ConvertAngle(degree, from, Some(to)).value < 360.0
  {
    assert 0.0 <= Mirror(degree, from, to) < 360.0;
  }

  /** On [0, 360) the conversion as written is exactly the geometric reference. */
  lemma ConvertAngleIsReconvert(degree: real, from: Convention, to: Convention)
    requires 0.0 <= degree < 360.0
    ensures ConvertAngle(degree, from, Some(to)) == Ok(Reconvert(degree, from, to))
  {
    ConvertAngleInRange(degree, from, to);
    ConvertAngleCongruent(degree, from, to);
  }

  /** Converting to the same convention leaves the degree unchanged. */
  lemma ConvertAngleIdentity(degree: real, c: Convention)
    ensures ConvertAngle(degree, c, Some(c)) == Ok(degree)
  {
  }

  /** An omitted target means the counterclockwise, positive-x convention. */
  lemma ConvertAngleDefaultTarget(degree: real, from: Convention)
    ensures ConvertAngle(degree, from, None) == ConvertAngle(degree, from, Some(Convention(CCW, PX)))
  {
  }

  /** The reference conversion undoes itself: reading back the physical
      direction in the original convention gives the original degree. */
  lemma {:induction false} ReconvertRoundTrip(degree: real, a: Convention, b: Convention)
    requires 0.0 <= degree < 360.0
    ensures Reconvert(Reconvert(degree, a, b), b, a) == degree
  {
    var reading := Reading(Physical(degree, a), b);
    var k := (reading / 360.0).Floor;
    var e := Reconvert(degree, a, b);
    assert e == reading - 360.0 * k as real;
    var back := Reading(Physical(reading, b), a);
    assert back == degree;
    var s: int := if a.direction == b.direction then 1 else -1;
    assert Reading(Physical(e, b), a) == back - 360.0 * (s * k) as real;
    ModShift(back, -(s * k));
    assert Reading(Physical(e, b), a) == back + 360.0 * (-(s * k)) as real;
  }

  /** Converting from A to B and back to A returns the original degree. */
  lemma ConvertAngleRoundTrip(degree: real, a: Convention, b: Convention)
    requires 0.0 <= degree < 360.0
    ensures ConvertAngle(ConvertAngle(degree, a, Some(b)).value, b, Some(a)) == Ok(degree)
  {
    ConvertAngleIsReconvert(degree, a, b);
    var e := Reconvert(degree, a, b);
    ConvertAngleIsReconvert(e, b, a);
    ReconvertRoundTrip(degree, a, b);
  }
}
