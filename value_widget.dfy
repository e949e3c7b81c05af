/**
 * The slider built by `_get_value_widget` and the two observers on its
 * `min` and `max` text boxes. Each observer accepts a new limit only when it
 * keeps `min < max`, and then recomputes the step from the new span.
 */
module ValueWidget {
  import opened Wrappers
  import opened Parameters
  import opened SliderBounds

  /** The slider's limits and step, as a value. */
  datatype SliderState = SliderState(min: real, max: real, step: real)

  /** A slider whose limits are strictly ordered and whose step is the default share of its span. */
  predicate Proper(s: SliderState) {
    s.min < s.max && s.step == (s.max - s.min) * StepRatio
  }

  /** The step the observers set for a span from `lo` to `hi`. */
  function StepFor(lo: real, hi: real): real {
    Abs(hi - lo) * StepRatio
  }

  /** The slider state after a new value `newMin` in the `min` box. */
  function MinChanged(s: SliderState, newMin: real): (r: SliderState)
    ensures newMin < s.max ==> r.min == newMin && r.max == s.max && Proper(r) && r.step > 0.0
    ensures !(newMin < s.max) ==> r == s
  {
    if s.max > newMin then SliderState(newMin, s.max, StepFor(newMin, s.max)) else s
  }

  /** The slider state after a new value `newMax` in the `max` box. */
  function MaxChanged(s: SliderState, newMax: real): (r: SliderState)
    ensures s.min < newMax ==> r.max == newMax && r.min == s.min && Proper(r) && r.step > 0.0
    ensures !(s.min < newMax) ==> r == s
  {
    if s.min < newMax then SliderState(s.min, newMax, StepFor(s.min, newMax)) else s
  }

  /** Each observer keeps a proper slider proper. */
  lemma ChangesKeepProper(s: SliderState, newLimit: real)
    requires Proper(s)
    ensures Proper(MinChanged(s, newLimit)) && Proper(MaxChanged(s, newLimit))
  {
  }

  /** A value-changed event on one of the two limit boxes. */
  datatype Edit = MinEdit(newMin: real) | MaxEdit(newMax: real)

  function Handle(s: SliderState, e: Edit): SliderState {
    match e
    case MinEdit(newMin) => MinChanged(s, newMin)
    case MaxEdit(newMax) => MaxChanged(s, newMax)
  }

  /** The slider state after the observers have handled `edits` in order. */
  function Replay(s: SliderState, edits: seq<Edit>): SliderState
    decreases |edits|
  {
    if edits == [] then s else Replay(Handle(s, edits[0]), edits[1..])
  }

  /** No sequence of edits takes a proper slider out of being proper. */
  lemma {:induction false} ReplayKeepsProper(s: SliderState, edits: seq<Edit>)
    requires Proper(s)
    ensures Proper(Replay(s, edits))
    decreases |edits|
  {
    if edits != [] {
      ChangesKeepProper(s, if edits[0].MinEdit? then edits[0].newMin else edits[0].newMax);
      ReplayKeepsProper(Handle(s, edits[0]), edits[1..]);
    }
  }

  /**
   * Whatever the starting slider (even the degenerate `min == max == 0` that
   * a zero value without bounds gives), after any edits it is either
   * untouched or proper: once one edit is accepted, `min < max` holds for good.
   */
  lemma {:induction false} ReplayUntouchedOrProper(s: SliderState, edits: seq<Edit>)
    ensures Replay(s, edits) == s || Proper(Replay(s, edits))
    decreases |edits|
  {
    if edits != [] {
      var next := Handle(s, edits[0]);
      if next == s {
        ReplayUntouchedOrProper(s, edits[1..]);
      } else {
        ReplayKeepsProper(next, edits[1..]);
      }
    }
  }

  /** The limits after any edits are the starting ones or values typed into the boxes. */
  lemma {:induction false} ReplayLimitsWereTyped(s: SliderState, edits: seq<Edit>)
    ensures var r := Replay(s, edits);
            (r.min == s.min || MinEdit(r.min) in edits) &&
            (r.max == s.max || MaxEdit(r.max) in edits)
    decreases |edits|
  {
    if edits != [] {
      ReplayLimitsWereTyped(Handle(s, edits[0]), edits[1..]);
      assert edits == [edits[0]] + edits[1..];
    }
  }

  /** The slider starts from the guessed bounds. */
  function Initial(b: Bounds): SliderState {
    SliderState(b.min, b.max, b.step)
  }

  /**
   * Away from the position parameter, the slider built from the guess for a
   * number starts proper exactly when the guess is proper.
   */
  lemma InitialProperIff(v: real, bmin: Option<real>, bmax: Option<real>)
    ensures var r := InteractiveSliderBounds(Scalar(v), bmin, bmax, None, None);
            r.Ok? && (Proper(Initial(r.value)) <==> GuessIsProper(v, bmin, bmax))
  {
    ProperGuessIff(v, bmin, bmax);
  }

  /** The slider object, whose three fields the observers update in place. */
  class FloatSlider {
    var min: real
    var max: real
    var step: real

    function State(): SliderState
      reads this
    {
      SliderState(min, max, step)
    }

    ghost predicate Valid()
      reads this
    {
      Proper(State())
    }

    constructor (b: Bounds)
      ensures State() == Initial(b)
    {
      min, max, step := b.min, b.max, b.step;
    }

    /** `on_min_change`: take `newMin` as the lower limit if it lies below `max`. */
    method OnMinChange(newMin: real)
      modifies this
      ensures State() == MinChanged(old(State()), newMin)
      ensures old(Valid()) ==> Valid()
    {
      if max > newMin {
        min := newMin;
        step := Abs(max - min) * StepRatio;
      }
    }

    /** `on_max_change`: take `newMax` as the upper limit if it lies above `min`. */
    method OnMaxChange(newMax: real)
      modifies this
      ensures State() == MaxChanged(old(State()), newMax)
      ensures old(Valid()) ==> Valid()
    {
      if min < newMax {
        max := newMax;
        step := Abs(max - min) * StepRatio;
      }
    }
  }
}
