/** The two ways the modelled core fails. The C# code throws an index-out-of-range
    exception in both cases; the model returns a `Failure` instead. */
module Results {

  datatype Error =
    | EmptyPolygon   // `points[0]` on an empty list (Plotter.Simplify)
    | EmptySolution  // `solution[0]` on an empty Clipper solution (OffsetUtility.OffsetWithClipper)

  datatype Result<T> = Success(value: T) | Failure(error: Error) {

    predicate IsFailure() {
      Failure?
    }

    function PropagateFailure<U>(): Result<U>
      requires Failure?
    {
      Failure(error)
    }

    function Extract(): T
      requires Success?
    {
      value
    }
  }
}
