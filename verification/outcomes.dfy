/** Failure-carrying results shared by the whole model.
    Each error names the exception the library raises on that path. */
module Outcomes {

  datatype Option<+T> = None | Some(value: T)

  datatype Error =
    | ShapeMismatch            // numpy refuses to stack, broadcast or multiply the shapes
    | EmptyInput               // an empty operand list reaches `arrays[0]` or `hstack([])`
    | MissingSize              // neither sizing argument was supplied
    | UndefinedName(name: string) // a name the module never defines is evaluated
    | NonNumeric               // a matrix built from `None` takes the place of numbers
    | NotSquare                // the eigendecomposition is asked for a non-square matrix
    | NotAnMvar                // an Mvar-only operator receives something else
    | NoOverload               // no registered signature of a multimethod matches
    | TupleIndex               // a plane is indexed with a tuple
    | IndexOutOfRange          // a column index outside the plane's dimensions

  datatype Result<+T> = Ok(value: T) | Err(error: Error)

  /** Turns a missing value into the given error. */
  function OrFail<T>(o: Option<T>, e: Error): (r: Result<T>)
    ensures r.Ok? <==> o.Some?
    ensures r.Ok? ==> r.value == o.value
  {
    match o
    case Some(v) => Ok(v)
    case None => Err(e)
  }
}
