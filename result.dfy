/** The `Result<T>` sum type of THRResult (Pods/THRResult/Result/Result.swift) and the
    error values the operation library defines on top of it. */
module Results {

  /** The errors that flow through results.
      - NoResult: `ResultError.noResult`, the placeholder of an output or input never set;
      - Errors: `CombineOperationError.errors`, every failure of a combined input, in order;
      - User: an error thrown by user code (for instance a test's `justATest`). */
  datatype Error = NoResult | Errors(errors: seq<Error>) | User(code: nat)

  datatype Option<+T> = None | Some(value: T)

  /** `Result<T>`: either a success value or a failure error. */
  datatype Result<+T> = Success(value: T) | Failure(error: Error)

  /** What a call to a Swift `throws` function does: it returns a value or throws an error. */
  datatype Outcome<+T> = Returned(value: T) | Threw(error: Error)

  /** `resolve()`: return the success value, or throw the carried error. */
  function Resolve<T>(r: Result<T>): (o: Outcome<T>)
    ensures o.Returned? <==> r.Success?
    ensures r.Success? ==> o.value == r.value
    ensures r.Failure? ==> o.error == r.error
  {
    match r
    case Success(v) => Returned(v)
    case Failure(e) => Threw(e)
  }

  /** `init(_ throwingExpr:)`: run the closure once; a returned value is a success,
      a thrown error a failure. */
  function FromThrowing<T>(throwingExpr: () -> Outcome<T>): (r: Result<T>)
    ensures r.Success? <==> throwingExpr().Returned?
    ensures throwingExpr().Returned? ==> r.value == throwingExpr().value
    ensures throwingExpr().Threw? ==> r.error == throwingExpr().error
  {
    match throwingExpr()
    case Returned(v) => Success(v)
    case Threw(e) => Failure(e)
  }

  /** `Result { try r.resolve() }` is `r` again, for every `r`. */
  lemma ResolveRoundTrip<T>(r: Result<T>)
    ensures FromThrowing(() => Resolve(r)) == r
  {
  }

  /** Resolving a result built from a closure gives back what the closure did. */
  lemma FromThrowingRoundTrip<T>(throwingExpr: () -> Outcome<T>)
    ensures Resolve(FromThrowing(throwingExpr)) == throwingExpr()
  {
  }

  /** The placeholder every producer's output starts with: `Result { throw ResultError.noResult }`. */
  function NoResultYet<T>(): (r: Result<T>)
    ensures r == FromThrowing(() => Threw(NoResult))
  {
    Failure(NoResult)
  }
}
