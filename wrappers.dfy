/** Option, Result and Go's nullable `error`, as used throughout the step executor. */
module Wrappers {

  datatype Option<+T> = None | Some(value: T)

  /** The errors the step executor produces or passes through.
      `Opaque` stands for an error made by a collaborator outside this model
      (the expression evaluator, the step body, the env-file reader, the PATH
      updater); the two wrapping forms are the `fmt.Errorf` messages built
      around an evaluator error in `isStepEnabled` and `isContinueOnError`. */
  datatype Error =
    | Opaque(message: string)
    | IfExpressionError(expr: string, cause: Error)
    | ContinueOnErrorExpressionError(expr: string, cause: Error)

  /** A value together with a Go `error`: exactly one of the two is meaningful. */
  datatype Result<+T> = Ok(value: T) | Err(error: Error)

  /** Go's `error` on its own: `nil` or a non-nil error. */
  datatype MaybeError = NoError | Failed(error: Error)
}
