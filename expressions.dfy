/** The boundary of the expression language. Parsing and evaluating
    `${{ ... }}` expressions is not part of this model: an evaluator is named
    by what it is bound to, and evaluation comes in as a function. */
module Expressions {
  import opened Wrappers

  /** The implicit status function an expression is evaluated under when it
      does not call one of `success()`, `always()`, `failure()`, `cancelled()`. */
  datatype DefaultStatusCheck =
    | StatusCheckNone
    | StatusCheckSuccess
    | StatusCheckAlways
    | StatusCheckCanceled
    | StatusCheckFailure

  /** `EvalBool` applied to the step's expression evaluator: the expression
      text and the default status check give a boolean or an error. */
  type EvalBool = (string, DefaultStatusCheck) -> Result<bool>

  /** The evaluators the step executor interpolates with. */
  datatype Evaluator =
    | RunContextEvaluator                            // rc.ExprEval
    | JobEvaluator                                   // rc.NewExpressionEvaluator(ctx)
    | StepEnvEvaluator(env: map<string, string>)     // rc.NewExpressionEvaluatorWithEnv(ctx, env)

  /** `Interpolate`: replaces the expressions inside a string by their values. */
  type Interpolator = (Evaluator, string) -> string
}
