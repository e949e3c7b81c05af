/**
 * The initial bounds guessed for a parameter's slider: `(min, max, step)`
 * from the parameter's optional lower and upper bounds and its current
 * value (or one element of it).
 */
module SliderBounds {
  import opened Wrappers
  import opened Parameters

  /** How many spans past a single known bound the guess reaches. */
  const Fraction: real := 10.0
  /** A slider's step is this share of its span. */
  const StepRatio: real := 0.001

  datatype Bounds = Bounds(min: real, max: real, step: real)

  /**
   * The last signal axis of the axes manager, as the position parameter's
   * slider sees it: the least and greatest axis coordinates and the scale.
   */
  datatype SignalAxis = SignalAxis(lo: real, hi: real, scale: real)

  function Abs(x: real): (r: real)
    ensures r >= 0.0 && (r == x || r == -x)
  {
    if x < 0.0 then -x else x
  }

  /** Bounds from `lo` to `hi` with the default step. */
  function Spanning(lo: real, hi: real): Bounds {
    Bounds(lo, hi, (hi - lo) * StepRatio)
  }

  /**
   * The guess for a value already selected. Only the cases with a missing
   * bound and no signal axis do arithmetic on the value, so only they fail
   * on a tuple. Every case but the signal axis one takes the default step.
   */
  function Guess(value: Value, bmin: Option<real>, bmax: Option<real>,
                 position: Option<SignalAxis>): (r: Result<Bounds>)
    ensures r.Err? ==> r.error == TypeError && value.Tuple?
    ensures r.Ok? && (position.None? || bmin.Some? || bmax.Some?) ==>
              r.value.step == (r.value.max - r.value.min) * StepRatio
  {
    match (bmin, bmax)
    case (Some(lo), Some(hi)) => Ok(Spanning(lo, hi))
    case (Some(lo), None) =>
      if value.Scalar? then Ok(Spanning(lo, value.x + Fraction * (value.x - lo)))
      else Err(TypeError)
    case (None, Some(hi)) =>
      if value.Scalar? then Ok(Spanning(value.x - Fraction * (hi - value.x), hi))
      else Err(TypeError)
    case (None, None) =>
      match position
      case Some(axis) => Ok(Bounds(axis.lo, axis.hi, Abs(axis.scale)))
      case None =>
        if value.Scalar? then
          Ok(Spanning(value.x - Abs(value.x * Fraction), value.x + Abs(value.x * Fraction)))
        else Err(TypeError)
  }

  /**
   * `_interactive_slider_bounds`: select the value (or its `index`-th
   * element), then guess. `position` is `Some` exactly when the parameter is
   * its component's position parameter.
   */
  function InteractiveSliderBounds(value: Value, bmin: Option<real>, bmax: Option<real>,
                                   position: Option<SignalAxis>, index: Option<nat>)
    : (r: Result<Bounds>)
    ensures Select(value, index).Err? ==> r == Err(Select(value, index).error)
    ensures r.Ok? && (position.None? || bmin.Some? || bmax.Some?) ==>
              r.value.step == (r.value.max - r.value.min) * StepRatio
    ensures r.Ok? && (position.None? || bmin.Some? || bmax.Some?) ==>
              (r.value.step >= 0.0 <==> r.value.min <= r.value.max)
    ensures r.Ok? && position.Some? && bmin.None? && bmax.None? ==> r.value.step >= 0.0
  {
    match Select(value, index)
    case Err(e) => Err(e)
    case Ok(v) => Guess(v, bmin, bmax, position)
  }

  /** With both bounds set the guess is exactly those bounds, whatever the value. */
  lemma BothBoundsSet(value: Value, lo: real, hi: real,
                      position: Option<SignalAxis>, index: Option<nat>)
    requires Select(value, index).Ok?
    ensures var r := InteractiveSliderBounds(value, Some(lo), Some(hi), position, index);
            r.Ok? && r.value.min == lo && r.value.max == hi &&
            r.value.step == (hi - lo) * StepRatio
  {
  }

  /**
   * With only a lower bound the maximum is extrapolated ten spans past the
   * value, so a value at or above the bound lies inside the slider.
   */
  lemma LowerBoundOnly(v: real, lo: real, position: Option<SignalAxis>)
    ensures var r := InteractiveSliderBounds(Scalar(v), Some(lo), None, position, None);
            r.Ok? && r.value.min == lo && r.value.max == v + Fraction * (v - lo) &&
            (lo <= v ==> r.value.min <= v <= r.value.max) &&
            (r.value.min < r.value.max <==> lo < v)
  {
  }

  /**
   * With only an upper bound the minimum is extrapolated ten spans below the
   * value, so a value at or below the bound lies inside the slider.
   */
  lemma UpperBoundOnly(v: real, hi: real, position: Option<SignalAxis>)
    ensures var r := InteractiveSliderBounds(Scalar(v), None, Some(hi), position, None);
            r.Ok? && r.value.max == hi && r.value.min == v - Fraction * (hi - v) &&
            (v <= hi ==> r.value.min <= v <= r.value.max) &&
            (r.value.min < r.value.max <==> v < hi)
  {
  }

  /**
   * With no bounds (and not the position parameter) the slider is symmetric
   * about the value, always contains it, and collapses to the single point
   * 0 with step 0 when the value is 0.
   */
  lemma NoBounds(v: real)
    ensures var r := InteractiveSliderBounds(Scalar(v), None, None, None, None);
            r.Ok? &&
            r.value.max - v == v - r.value.min == Abs(Fraction * v) &&
            r.value.min <= v <= r.value.max &&
            (v == 0.0 <==> r.value == Bounds(0.0, 0.0, 0.0)) &&
            (r.value.min < r.value.max <==> v != 0.0)
  {
  }

  /**
   * The position parameter with no bounds spans its signal axis, with the
   * axis scale's magnitude as step.
   */
  lemma PositionSpansAxis(value: Value, axis: SignalAxis, index: Option<nat>)
    requires Select(value, index).Ok?
    ensures InteractiveSliderBounds(value, None, None, Some(axis), index) ==
            Ok(Bounds(axis.lo, axis.hi, Abs(axis.scale)))
  {
  }

  /**
   * With an element index, the guess is the one for that element alone; an
   * index into a number or past the end of the tuple fails.
   */
  lemma IndexedBounds(value: Value, bmin: Option<real>, bmax: Option<real>,
                      position: Option<SignalAxis>, i: nat)
    ensures value.Scalar? ==>
              InteractiveSliderBounds(value, bmin, bmax, position, Some(i)) == Err(TypeError)
    ensures value.Tuple? && |value.elems| <= i ==>
              InteractiveSliderBounds(value, bmin, bmax, position, Some(i)) == Err(IndexError)
    ensures value.Tuple? && i < |value.elems| ==>
              InteractiveSliderBounds(value, bmin, bmax, position, Some(i)) ==
              InteractiveSliderBounds(Scalar(value.elems[i]), bmin, bmax, position, None)
  {
  }

  /**
   * A whole tuple value without an index only gets bounds when no arithmetic
   * on it is needed: both bounds set, or the position parameter with none.
   */
  lemma TupleWithoutIndex(elems: seq<real>, bmin: Option<real>, bmax: Option<real>,
                          position: Option<SignalAxis>)
    ensures InteractiveSliderBounds(Tuple(elems), bmin, bmax, position, None).Ok? <==>
            (bmin.Some? && bmax.Some?) || (bmin.None? && bmax.None? && position.Some?)
  {
  }

  /** Whether a selected number lies within the bounds that are set. */
  predicate WithinKnownBounds(v: real, bmin: Option<real>, bmax: Option<real>) {
    (bmin.None? || bmin.value <= v) && (bmax.None? || v <= bmax.value)
  }

  /**
   * Away from the position parameter, a value within the bounds that are set
   * lies inside the guessed slider.
   */
  lemma ValueInsideGuess(v: real, bmin: Option<real>, bmax: Option<real>)
    requires WithinKnownBounds(v, bmin, bmax)
    ensures var r := InteractiveSliderBounds(Scalar(v), bmin, bmax, None, None);
            r.Ok? && r.value.min <= v <= r.value.max
  {
  }

  /** Whether the guess for a selected number gives a slider with `min < max`. */
  predicate GuessIsProper(v: real, bmin: Option<real>, bmax: Option<real>) {
    match (bmin, bmax)
    case (Some(lo), Some(hi)) => lo < hi
    case (Some(lo), None) => lo < v
    case (None, Some(hi)) => v < hi
    case (None, None) => v != 0.0
  }

  /** Away from the position parameter, the guess has `min < max` exactly when `GuessIsProper`. */
  lemma ProperGuessIff(v: real, bmin: Option<real>, bmax: Option<real>)
    ensures var r := InteractiveSliderBounds(Scalar(v), bmin, bmax, None, None);
            r.Ok? && (r.value.min < r.value.max <==> GuessIsProper(v, bmin, bmax))
  {
  }
}
