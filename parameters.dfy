/**
 * The part of a fit-model parameter that the widget code reads and writes:
 * its value, which is one number or, for a parameter with several elements,
 * a tuple of numbers. Numbers are modelled as `real`, not as floats.
 */
module Parameters {
  import opened Wrappers

  datatype Value = Scalar(x: real) | Tuple(elems: seq<real>)

  /** The Python exceptions the modelled code can raise. */
  datatype Error =
    | TypeError   // indexing or slicing a number, or arithmetic on a tuple
    | IndexError  // an element index past the end of the tuple

  datatype Result<+T> = Ok(value: T) | Err(error: Error)

  /**
   * The value a widget shows: the whole value when no element index is
   * given, otherwise that element of the tuple.
   */
  function Select(v: Value, index: Option<nat>): (r: Result<Value>)
    ensures r.Ok? && index.Some? ==> r.value.Scalar?
    ensures index.Some? && v.Tuple? && index.value < |v.elems| ==>
              r == Ok(Scalar(v.elems[index.value]))
  {
    match index
    case None => Ok(v)
    case Some(i) =>
      match v
      case Scalar(_) => Err(TypeError)
      case Tuple(elems) => if i < |elems| then Ok(Scalar(elems[i])) else Err(IndexError)
  }

  /**
   * `Select` fails exactly on a number with an index or an index past the
   * end; an index inside the tuple gives that element.
   */
  lemma SelectErrors(v: Value, index: Option<nat>)
    ensures index.None? ==> Select(v, index) == Ok(v)
    ensures index.Some? && v.Scalar? ==> Select(v, index) == Err(TypeError)
    ensures index.Some? && v.Tuple? ==>
              (Select(v, index) == Err(IndexError) <==> |v.elems| <= index.value)
    ensures index.Some? && v.Tuple? && index.value < |v.elems| ==>
              Select(v, index) == Ok(Scalar(v.elems[index.value]))
  {
  }
}
