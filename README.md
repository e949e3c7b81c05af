# Parameter slider logic of hyperspy_gui_ipywidgets, in Dafny

This project models the small part of the notebook widgets that does real
work. A fit-model parameter is shown as a slider with a `min` and a `max`
text box on either side. The model covers three pieces of `model.py`:

- **The initial slider bounds** (`_interactive_slider_bounds`). The function
  guesses `(min, max, step)` from the parameter's optional lower and upper
  bounds and its current value, or one element of a tuple value. If one bound
  is missing, the guess extrapolates ten spans past the value. If both are
  missing, it extends ten times the value's magnitude on each side. The step is
  0.1 % of the span. The position parameter of a component without bounds is
  the exception: it spans the last signal axis, and its step is the magnitude
  of the axis scale.
  This is modelled as a pure function over `real` (`SliderBounds`).
- **The write-back callback** (`_interactive_tuple_update`). It either replaces
  the parameter's value or splices a new number into one position of a tuple
  value, using Python's slice semantics. It is modelled as a `Parameter` class
  whose `value` field the method assigns. A pure function `Updated` specifies
  the method (`TupleUpdate`).
- **The `min`/`max` observers** (`on_min_change`, `on_max_change`). They
  accept a new limit only if it keeps `min < max`, and then set the step from
  the new span. They are modelled as a `FloatSlider` class with three `real`
  fields. Its two methods are proved against pure transition functions. Lemmas
  over any sequence of edits show that the handlers keep `min < max`
  (`ValueWidget`).

Python's `None` becomes `Option`. The exceptions the code can raise become
`Err` results. Indexing a number or doing arithmetic on a tuple raises
`TypeError`. An element index past the end of the tuple raises `IndexError`.
The last signal axis of the axes manager is an input (`SignalAxis`): its least
and greatest coordinate and its scale. The model gets these values as
parameters and does not compute them from the axis arrays.

Files: `wrappers.dfy` (Option), `parameters.dfy` (parameter values, errors,
element selection), `slider_bounds.dfy`, `tuple_update.dfy`,
`value_widget.dfy`.

## Model

| member | source | states |
|---|---|---|
| Parameters.Select | model.py:16 | A selected element, when there is one, is a single number. An index inside a tuple gives `value[index]` |
| Parameters.SelectErrors | model.py:16 | No index selects the whole value. An index into a number is a `TypeError`. An index into a tuple is an `IndexError` exactly when it is past the end, and otherwise gives that element |
| SliderBounds.Guess | model.py:17-35 | Only a tuple value in a branch that does arithmetic on it fails, and the failure is a `TypeError`. Unless the signal axis was used (the position parameter with no bounds), `step = (max - min) * 0.001` |
| SliderBounds.InteractiveSliderBounds | model.py:9-36 | A failed selection of the value is propagated. Unless the signal axis was used (the position parameter with no bounds), `step = (max - min) * 0.001`, so `step >= 0` iff `min <= max`. The position parameter's axis step is never negative |
| SliderBounds.BothBoundsSet | model.py:17-20 | With both bounds set, `min = bmin` and `max = bmax` whatever the value, and `step = (bmax - bmin) * 0.001` |
| SliderBounds.LowerBoundOnly | model.py:21-22 | With only `bmin`, `max = value + 10 (value - bmin)`. A value `>= bmin` lies in `[min, max]`. `min < max` iff `bmin < value` |
| SliderBounds.UpperBoundOnly | model.py:23-24 | With only `bmax`, `min = value - 10 (bmax - value)`. A value `<= bmax` lies in `[min, max]`. `min < max` iff `value < bmax` |
| SliderBounds.NoBounds | model.py:31-35 | With no bounds, `max - value = value - min = abs(10 value)`, so the value lies in `[min, max]`. The result is `(0, 0, 0)` exactly when the value is 0. `min < max` iff the value is not 0 |
| SliderBounds.PositionSpansAxis | model.py:25-30 | The position parameter without bounds spans the signal axis from its least to its greatest coordinate, with step `abs(scale)` |
| SliderBounds.IndexedBounds | model.py:16 | With an index, the bounds are those of element `value[index]` alone. Indexing a number is a `TypeError`, and an index past the end is an `IndexError` |
| SliderBounds.TupleWithoutIndex | model.py:16-33 | A whole tuple value gets bounds exactly when both bounds are set, or when it is the position parameter with neither set |
| SliderBounds.ValueInsideGuess | model.py:17-35 | Away from the position parameter, a value within the bounds that are set lies inside the guessed `[min, max]` |
| SliderBounds.ProperGuessIff | model.py:17-35 | Away from the position parameter, the guess has `min < max` exactly when: `bmin < bmax`, `bmin < value`, `value < bmax`, or `value != 0`, whichever bounds are set |
| TupleUpdate.Splice | model.py:46-47 | The new element is in the spliced tuple |
| TupleUpdate.SpliceInRange | model.py:46-47 | For an index inside the tuple, the splice keeps the length, holds the new number at the index and keeps every other element. It equals the sequence update `s[i := x]` |
| TupleUpdate.SplicePastEnd | model.py:46-47 | For an index at or past the end, Python's slices clamp, so the splice appends the new number |
| TupleUpdate.Updated | model.py:39-47 | The value the callback leaves, or the exception it raises. Only an element update can fail, and then with `TypeError`. A successful element update needs a tuple value and a number, and gives a tuple holding that number. Its full behaviour is stated by `UpdatedWhole`, `UpdatedElement` and `UpdatedElementOfNumber` |
| TupleUpdate.UpdatedWhole | model.py:42-44 | A missing change leaves the value untouched. With no index, the value becomes the new one |
| TupleUpdate.UpdatedElement | model.py:45-47 | With an index inside the tuple, the new tuple keeps its length, holds the new number at the index, and nothing else changes |
| TupleUpdate.UpdatedElementOfNumber | model.py:45-47 | An element update on a number value is a `TypeError` |
| TupleUpdate.Parameter.InteractiveTupleUpdate | model.py:39-47 | The `value` field becomes `Updated(old value, change, index)`. On an exception the field keeps its old value and the exception is returned |
| ValueWidget.MinChanged | model.py:71-74 | A new `min` below `max` is taken. `max` is kept, and the state afterwards has `min < max` and `step = (max - min) * 0.001 > 0`. Any other new `min` leaves the state unchanged |
| ValueWidget.MaxChanged | model.py:76-79 | A new `max` above `min` is taken. `min` is kept, and the state afterwards has `min < max` and `step = (max - min) * 0.001 > 0`. Any other new `max` leaves the state unchanged |
| ValueWidget.ChangesKeepProper | model.py:71-79 | Both observers preserve `min < max` and the step relation |
| ValueWidget.ReplayKeepsProper | model.py:71-82 | Any sequence of edits to the two boxes keeps a proper slider proper |
| ValueWidget.ReplayUntouchedOrProper | model.py:71-82 | From any starting slider, including the degenerate one, any sequence of edits either leaves it untouched or makes it proper. Once an edit is accepted, `min < max` holds for good |
| ValueWidget.ReplayLimitsWereTyped | model.py:71-82 | After any edits, `min` is the starting one or a value typed into the `min` box, and likewise for `max` |
| ValueWidget.InitialProperIff | model.py:51-69 | Away from the position parameter, the slider built from the guess starts with `min < max` and the default step exactly when the guess is proper |
| ValueWidget.FloatSlider.constructor | model.py:64-69 | The slider starts with the guessed `min`, `max` and `step` |
| ValueWidget.FloatSlider.OnMinChange | model.py:71-74 | The fields become `MinChanged(old state, new)`, and a valid slider stays valid |
| ValueWidget.FloatSlider.OnMaxChange | model.py:76-79 | The fields become `MaxChanged(old state, new)`, and a valid slider stays valid |

## Left out

- Widget construction, observer registration and trait linking (`FloatText`, `FloatSlider`, `HBox`, `VBox`, `Accordion`, `Checkbox`, `observe`, `link_traits`; model.py:51-69, 81-91, 94-173), except the slider's initial `min`, `max` and `step` (model.py:64-69). These are toolkit plumbing with no logic of their own. The slider keeps only its `min`, `max` and `step`. Its `value` and the toolkit's own clamping and validation of these fields are not part of this model.
- The `link_traits` call at model.py:88 names a variable `value` that is never defined there. The no-index path to the parameter is not modelled beyond the callback's own branch.
- The checkbox callbacks that copy a boolean onto the component (model.py:117-119, 166-169): each is a single assignment to state owned elsewhere.
- `hyperspy_gui_ipywidgets/axes.py`: it only builds axis widgets and links them. The width-slider bound and title numbering there belong to those widget objects.
- SliderBounds.InteractiveSliderBounds: the signal axis of the position parameter is an input. Reading its coordinate array and scale from the axes manager is not part of this model.
- Floating point: all arithmetic is over `real`, with no rounding. `np` and `functools` are used in model.py without being imported. The model follows the arithmetic they are evidently meant to perform.
- Negative element indices: the callers pass indices from `range(number_of_elements)`, so indices are `nat`.
- TupleUpdate.Updated: splicing a tuple into an element position is reported as `TypeError`. Python would build a nested tuple and pass it to the parameter's setter, which is not part of this model.
- The parameter's value setter: what the parameter object does with an assigned value (validation, events) is not part of this model. A splice past the end, which lengthens the tuple, is stored as it is.
