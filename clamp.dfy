/** Clamping of gaze coordinates used by the live AR view
    (SpeechFlow/CustomARView.swift): the `CGFloat.clamped(to:)` extension over a
    `ClosedRange`, and the clamp of the cosine before `acos`.
    CGFloat and Float are modelled as `real`; NaN is not modelled. */
module ARClamp {

  import opened Basics

  /** A Swift `ClosedRange`: constructing one with lower > upper traps, so
      every range that reaches `clamped(to:)` has lower <= upper. */
  datatype Range = Range(lower: real, upper: real)
  type ClosedRange = r: Range | r.lower <= r.upper witness Range(0.0, 0.0)

  function Min(a: real, b: real): real { if a <= b then a else b }
  function Max(a: real, b: real): real { if a >= b then a else b }

  /** `min(max(x, range.lowerBound), range.upperBound)` */
  function Clamped(x: real, range: ClosedRange): (r: real)
    ensures range.lower <= r <= range.upper
    ensures range.lower <= x <= range.upper ==> r == x
    ensures x < range.lower ==> r == range.lower
    ensures x > range.upper ==> r == range.upper
  {
    Min(Max(x, range.lower), range.upper)
  }

  /** Clamping a value that is already clamped changes nothing. */
  lemma ClampedIdempotent(x: real, range: ClosedRange)
    ensures Clamped(Clamped(x, range), range) == Clamped(x, range)
  {
  }

  /** Clamping preserves order. */
  lemma ClampedMonotone(x: real, y: real, range: ClosedRange)
    requires x <= y
    ensures Clamped(x, range) <= Clamped(y, range)
  {
  }

  /** The result is the point of the range nearest to x. */
  lemma ClampedIsNearest(x: real, range: ClosedRange, p: real)
    requires range.lower <= p <= range.upper
    ensures Abs(Clamped(x, range) - x) <= Abs(p - x)
  {
  }

  /** The cosine clamp before `acos` in `detectEyeContact`:
      `min(max(dot, -1.0), 1.0)`. */
  function ClampedDot(dot: real): (r: real)
    ensures -1.0 <= r <= 1.0
    ensures -1.0 <= dot <= 1.0 ==> r == dot
    ensures r == Clamped(dot, Range(-1.0, 1.0))
  {
    Min(Max(dot, -1.0), 1.0)
  }
}
