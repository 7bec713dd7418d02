/** Numeric mapping from sensor readings to MIDI controller values: the two
    `clamp` overloads of `DJListener`, Java's `(int)` narrowing cast from
    `float`, and the `((x + 1) / 2) * 127` scaling that the listener applies
    to the hand pitch and to the pointing finger's position.

    Sensor values are `real`: IEEE rounding, NaN and the infinities are not
    modelled. */
module ValueMapper {

  /** Bounds of a Java `int`. */
  const INT_MIN: int := -0x8000_0000
  const INT_MAX: int := 0x7fff_ffff

  /** Largest value a MIDI data byte (and so a controller value) can hold. */
  const MIDI_MAX: int := 127

  /** Approximation of pi written into the roll normalisation. */
  const PI_F: real := 3.14159

  // ---------------------------------------------------------------------------
  // Rounding toward zero and Java's float-to-int cast
  // ---------------------------------------------------------------------------

  /** Rounds toward zero. Unlike `Floor`, a negative fraction rounds up. */
  function Trunc(x: real): (r: int)
    ensures 0.0 <= x ==> 0 <= r && r as real <= x < r as real + 1.0
    ensures x < 0.0 ==> r <= 0 && r as real - 1.0 < x <= r as real
  {
    if x >= 0.0 then x.Floor else -((-x).Floor)
  }

  /** Java's `(int)` cast of a finite `float`: rounds toward zero, and a value
      beyond the range of `int` becomes the nearest bound. */
  function JavaIntCast(x: real): (r: int)
    ensures INT_MIN <= r <= INT_MAX
    ensures 0.0 <= x ==> 0 <= r && r as real <= x && (r == INT_MAX || x < r as real + 1.0)
    ensures x < 0.0 ==> r <= 0 && x <= r as real && (r == INT_MIN || r as real - 1.0 < x)
  {
    if x >= INT_MAX as real then INT_MAX
    else if x <= INT_MIN as real then INT_MIN
    else Trunc(x)
  }

  /** Truncation preserves order. */
  lemma TruncMonotone(x: real, y: real)
    requires x <= y
    ensures Trunc(x) <= Trunc(y)
  {
  }

  /** The saturating cast preserves order. */
  lemma JavaIntCastMonotone(x: real, y: real)
    requires x <= y
    ensures JavaIntCast(x) <= JavaIntCast(y)
  {
  }

  /** Truncation and flooring part ways exactly on negative non-integers. */
  lemma TruncDiffersFromFloor()
    ensures Trunc(-0.5) == 0 && (-0.5).Floor == -1
    ensures Trunc(-63.5) == -63 && (-63.5).Floor == -64
  {
  }

  // ---------------------------------------------------------------------------
  // clamp(int, int, int) and clamp(float, float, float)
  // ---------------------------------------------------------------------------

  /** The `int` overload of `clamp`: an input above `max` becomes `max`, one
      below `min` becomes `min`, anything else is returned unchanged. The
      upper bound is tested first, so with `min > max` an input above `max`
      yields `max`. */
  function ClampInt(v: int, lo: int, hi: int): (r: int)
    ensures lo <= hi ==> lo <= r <= hi
    ensures lo <= v <= hi ==> r == v
    ensures r == v || r == lo || r == hi
    ensures v > hi ==> r == hi
  {
    if v > hi then hi
    else if v < lo then lo
    else v
  }

  /** The `float` overload of `clamp`, with the same branches as `ClampInt`.
      The listener itself only calls the `int` overload. */
  function ClampReal(v: real, lo: real, hi: real): (r: real)
    ensures lo <= hi ==> lo <= r <= hi
    ensures lo <= v <= hi ==> r == v
    ensures r == v || r == lo || r == hi
    ensures v > hi ==> r == hi
  {
    if v > hi then hi
    else if v < lo then lo
    else v
  }

  function MinInt(a: int, b: int): int { if a <= b then a else b }
  function MaxInt(a: int, b: int): int { if a <= b then b else a }
  function MinReal(a: real, b: real): real { if a <= b then a else b }
  function MaxReal(a: real, b: real): real { if a <= b then b else a }

  /** With ordered bounds, `clamp` is the median of the input and the bounds. */
  lemma ClampIntIsMedian(v: int, lo: int, hi: int)
    requires lo <= hi
    ensures ClampInt(v, lo, hi) == MaxInt(lo, MinInt(v, hi))
  {
  }

  lemma ClampRealIsMedian(v: real, lo: real, hi: real)
    requires lo <= hi
    ensures ClampReal(v, lo, hi) == MaxReal(lo, MinReal(v, hi))
  {
  }

  /** Clamping twice is clamping once. */
  lemma ClampIntIdempotent(v: int, lo: int, hi: int)
    requires lo <= hi
    ensures ClampInt(ClampInt(v, lo, hi), lo, hi) == ClampInt(v, lo, hi)
  {
  }

  lemma ClampRealIdempotent(v: real, lo: real, hi: real)
    requires lo <= hi
    ensures ClampReal(ClampReal(v, lo, hi), lo, hi) == ClampReal(v, lo, hi)
  {
  }

  /** With bounds out of order, clamping is not idempotent: an input above
      `hi` becomes `hi`, which is then below `lo`. */
  lemma ClampIntNotIdempotentOnReversedBounds()
    ensures ClampInt(5, 3, 1) == 1
    ensures ClampInt(ClampInt(5, 3, 1), 3, 1) == 3
  {
  }

  /** Clamping preserves order. */
  lemma ClampIntMonotone(v: int, w: int, lo: int, hi: int)
    requires lo <= hi
    requires v <= w
    ensures ClampInt(v, lo, hi) <= ClampInt(w, lo, hi)
  {
  }

  // ---------------------------------------------------------------------------
  // Mapping a signed unit reading to a controller value
  // ---------------------------------------------------------------------------

  /** `((u + 1) / 2) * 127`: maps `[-1, 1]` linearly onto `[0, 127]`. */
  function Scale(u: real): real
  {
    ((u + 1.0) / 2.0) * 127.0
  }

  /** `clamp((int)(((u + 1) / 2) * 127), 0, 127)`, the expression the listener
      applies to the pitch and to the pointing position divided by 100.
      Inside `[-1, 1]` the result is the integer part of the scaled reading;
      at or beyond either end it saturates. */
  function ToController(u: real): (r: int)
    ensures 0 <= r <= MIDI_MAX
    ensures -1.0 <= u <= 1.0 ==> r as real <= Scale(u) < r as real + 1.0
    ensures u >= 1.0 ==> r == MIDI_MAX
    ensures u <= -1.0 ==> r == 0
  {
    ClampInt(JavaIntCast(Scale(u)), 0, MIDI_MAX)
  }

  /** After clamping into `[0, 127]`, Java's truncating and saturating cast
      agrees with flooring: the two differ only on negative non-integers
      and outside the `int` range, and all of those clamp to the same end. */
  lemma CastThenClampIsFloorThenClamp(x: real)
    ensures ClampInt(JavaIntCast(x), 0, MIDI_MAX) == ClampInt(x.Floor, 0, MIDI_MAX)
  {
  }

  /** Reference definition of the controller mapping with a plain floor. */
  lemma ToControllerIsFloorOfScale(u: real)
    ensures ToController(u) == ClampInt(Scale(u).Floor, 0, MIDI_MAX)
  {
  }

  /** A larger reading never gives a smaller controller value. */
  lemma ToControllerMonotone(u: real, v: real)
    requires u <= v
    ensures ToController(u) <= ToController(v)
  {
  }

  /** A reading of zero lands on 63, not 64: the cast truncates 63.5. */
  lemma ToControllerCentre()
    ensures ToController(0.0) == 63
  {
  }

  // ---------------------------------------------------------------------------
  // Roll normalisation (computed by the listener but never sent)
  // ---------------------------------------------------------------------------

  /** Maps a roll angle in `(-pi, pi]` to half turns in `[0, 2)`, by adding a
      full turn to a negative angle and dividing by pi. */
  function RollHalfTurns(roll: real): (r: real)
    ensures -PI_F < roll <= PI_F ==> 0.0 <= r < 2.0
    ensures 0.0 <= roll ==> r * PI_F == roll
  {
    var unsigned := if roll < 0.0 then (2.0 * PI_F) - (roll * -1.0) else roll;
    unsigned / PI_F
  }

  /** A negative angle normalises as if a full turn were added to it. */
  lemma RollNegativeAddsFullTurn(e: real)
    requires 0.0 < e <= PI_F
    ensures RollHalfTurns(-e) == RollHalfTurns(2.0 * PI_F - e)
  {
  }

  /** Where the SDK's angle wraps, from pi to just above -pi, the normalised
      roll is continuous: both sides lie within `e / pi` of one half turn. */
  lemma RollContinuousAtHalfTurn(e: real)
    requires 0.0 < e < PI_F
    ensures RollHalfTurns(PI_F) == 1.0
    ensures RollHalfTurns(-PI_F + e) == 1.0 + e / PI_F
    ensures RollHalfTurns(PI_F - e) == 1.0 - e / PI_F
  {
  }

  /** The normalised roll jumps where the hand is level: just below zero it
      is nearly two half turns, at zero it is none. */
  lemma RollJumpsAtLevel(e: real)
    requires 0.0 < e < PI_F
    ensures RollHalfTurns(0.0) == 0.0
    ensures RollHalfTurns(-e) == 2.0 - e / PI_F
  {
  }

  /** `clamp((int)((roll / 2) * 127), 0, 127)` on the normalised roll. */
  function RollMidi(roll: real): (r: int)
    ensures 0 <= r <= MIDI_MAX
    ensures 0.0 <= roll <= PI_F ==> r <= 63
  {
    var half := RollHalfTurns(roll);
    assert 0.0 <= roll <= PI_F ==> half <= 1.0;
    ClampInt(JavaIntCast((half / 2.0) * 127.0), 0, MIDI_MAX)
  }

  /** The jump at a level hand carries over to the roll value: a hair below
      zero gives 126, zero gives 0. */
  lemma RollMidiJumpsAtLevel()
    ensures RollMidi(-0.001) == 126
    ensures RollMidi(0.0) == 0
  {
  }
}
