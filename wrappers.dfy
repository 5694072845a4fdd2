/** Failure-carrying result types shared by every module of the model, and the
    errors the library reports. */
module Wrappers {

  datatype Option<+T> = None | Some(value: T) {
    predicate IsFailure() {
      None?
    }

    function PropagateFailure<U>(): Option<U>
      requires None?
    {
      None
    }

    function Extract(): T
      requires Some?
    {
      value
    }
  }

  datatype Result<+T, +E> = Success(value: T) | Failure(error: E) {
    predicate IsFailure() {
      Failure?
    }

    function PropagateFailure<U>(): Result<U, E>
      requires Failure?
    {
      Failure(error)
    }

    function Extract(): T
      requires Success?
    {
      value
    }
  }

  /** An error value as the library hands it to its caller. */
  datatype Error =
    /** `errors.New(text)` or `fmt.Errorf` whose arguments the model renders. */
    | Message(text: string)
    /** `fmt.Errorf(prefix + ": %w", cause)`. */
    | Wrapped(prefix: string, cause: Error)
    /** `*json.UnmarshalTypeError`: a JSON value of kind `value` met a Go type
        `goType`; `field` is the struct field path, empty at the top level. */
    | UnmarshalTypeError(value: string, goType: string, field: string)
    /** An error produced by a collaborator the model does not look into
        (malformed JSON text, the HTTP transport). */
    | External(detail: string)
}
