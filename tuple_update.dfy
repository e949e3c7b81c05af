/**
 * `_interactive_tuple_update`: the callback that writes a widget's new value
 * back into the parameter, either the whole value or one element of a tuple.
 */
module TupleUpdate {
  import opened Wrappers
  import opened Parameters

  /** Python's clamping of a non-negative slice bound `i` to a length `n`. */
  function Clamp(i: nat, n: nat): (r: nat)
    ensures r <= n && (i <= n ==> r == i)
  {
    if i < n then i else n
  }

  /** Python's `s[:i] + (x,) + s[i + 1:]` for a non-negative `i`. */
  function Splice(s: seq<real>, i: nat, x: real): (r: seq<real>)
    ensures x in r
  {
    s[..Clamp(i, |s|)] + [x] + s[Clamp(i + 1, |s|)..]
  }

  /** Inside the tuple, the splice replaces element `i` and keeps the length and every other element. */
  lemma SpliceInRange(s: seq<real>, i: nat, x: real)
    requires i < |s|
    ensures |Splice(s, i, x)| == |s|
    ensures Splice(s, i, x)[i] == x
    ensures forall j :: 0 <= j < |s| && j != i ==> Splice(s, i, x)[j] == s[j]
    ensures Splice(s, i, x) == s[i := x]
  {
  }

  /** Past the end of the tuple both slices clamp, so the splice appends `x`. */
  lemma SplicePastEnd(s: seq<real>, i: nat, x: real)
    requires |s| <= i
    ensures Splice(s, i, x) == s + [x]
  {
  }

  /**
   * The value the callback leaves in the parameter, or the exception it
   * raises. A missing change does nothing; without an index the new value
   * replaces the old one; with an index a number is spliced into the tuple.
   */
  function Updated(current: Value, change: Option<Value>, index: Option<nat>): (r: Result<Value>)
    ensures r.Err? ==> r.error == TypeError && change.Some? && index.Some?
    ensures r.Ok? && change.Some? && index.Some? ==>
              current.Tuple? && change.value.Scalar? && r.value.Tuple? &&
              change.value.x in r.value.elems
  {
    match change
    case None => Ok(current)
    case Some(newValue) =>
      match index
      case None => Ok(newValue)
      case Some(i) =>
        if current.Tuple? && newValue.Scalar? then Ok(Tuple(Splice(current.elems, i, newValue.x)))
        else Err(TypeError)
  }

  /** A missing change leaves the value as it was; without an index the value becomes the new one. */
  lemma UpdatedWhole(current: Value, change: Option<Value>)
    ensures change.None? ==> Updated(current, change, None) == Ok(current)
    ensures change.Some? ==> Updated(current, change, None) == Ok(change.value)
  {
  }

  /**
   * With an index inside the tuple, the updated tuple has the same length,
   * holds the new number at the index and nothing else differs.
   */
  lemma UpdatedElement(elems: seq<real>, x: real, i: nat)
    requires i < |elems|
    ensures var r := Updated(Tuple(elems), Some(Scalar(x)), Some(i));
            r.Ok? && r.value.Tuple? && |r.value.elems| == |elems| &&
            r.value.elems[i] == x &&
            (forall j :: 0 <= j < |elems| && j != i ==> r.value.elems[j] == elems[j])
  {
    SpliceInRange(elems, i, x);
  }

  /** An element update on a number (not a tuple) fails and so changes nothing. */
  lemma UpdatedElementOfNumber(v: real, change: Value, i: nat)
    ensures Updated(Scalar(v), Some(change), Some(i)) == Err(TypeError)
  {
  }

  /** The parameter object whose `value` field the callback assigns. */
  class Parameter {
    var value: Value

    constructor (v: Value)
      ensures value == v
    {
      value := v;
    }

    /**
     * Apply a value-changed event to `value`. On an exception, the field is
     * left as it was and the exception is returned.
     */
    method InteractiveTupleUpdate(change: Option<Value>, index: Option<nat>)
      returns (raised: Option<Error>)
      modifies this
      ensures Updated(old(value), change, index).Ok? ==>
                raised == None && value == Updated(old(value), change, index).value
      ensures Updated(old(value), change, index).Err? ==>
                raised == Some(Updated(old(value), change, index).error) && value == old(value)
    {
      raised := None;
      if change.Some? {
        if index.None? {
          value := change.value;
        } else if value.Tuple? && change.value.Scalar? {
          value := Tuple(Splice(value.elems, index.value, change.value.x));
        } else {
          raised := Some(TypeError);
        }
      }
    }
  }
}
