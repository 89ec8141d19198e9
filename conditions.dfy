/** The two gating decisions of a step: whether it runs at all (its
    if-expression) and whether a failure of its body is tolerated (its
    continue-on-error expression). Evaluating an expression is the
    expression language's business; it comes in as an `EvalBool`. */
module Conditions {
  import opened Wrappers
  import opened Text
  import opened Stages
  import opened Expressions

  /** The stage-to-policy table for if-expressions. */
  function IfDefaultStatusCheck(stage: Stage): DefaultStatusCheck {
    if stage == Post then StatusCheckAlways else StatusCheckSuccess
  }

  /** `isStepEnabled`: a post step runs regardless of earlier failures unless
      its expression says otherwise, a pre or main step only when nothing
      upstream failed; an evaluation error is reported wrapped, with the
      expression text and no mention of the stage. */
  function IsStepEnabled(expr: string, stage: Stage, evalBool: EvalBool): (r: Result<bool>)
    ensures var answer := evalBool(expr, if stage == Post then StatusCheckAlways else StatusCheckSuccess);
            && (r == Ok(true) <==> answer == Ok(true))
            && (r == Ok(false) <==> answer == Ok(false))
            && (r.Err? <==> answer.Err?)
            && (r.Err? ==> r.error == IfExpressionError(expr, answer.error))
  {
    match evalBool(expr, IfDefaultStatusCheck(stage))
    case Err(e) => Err(IfExpressionError(expr, e))
    case Ok(runStep) => Ok(runStep)
  }

  /** Pre and main stages gate alike; only the post stage has its own policy. */
  lemma PreAndMainGateAlike(expr: string, evalBool: EvalBool)
    ensures IsStepEnabled(expr, Pre, evalBool) == IsStepEnabled(expr, Main, evalBool)
  {
  }

  /** `isContinueOnError`: an expression that is blank once trimmed is `false`
      outright, and the evaluator is then never asked (whatever it would say,
      the answer is the same, and no error can come of it). Otherwise the
      expression is evaluated with no default status check, and an evaluation
      error is reported wrapped. */
  function IsContinueOnError(expr: string, evalBool: EvalBool): (r: Result<bool>)
    ensures AllSpace(expr) ==> r == Ok(false)
    ensures !AllSpace(expr) ==>
              && (r == Ok(true) <==> evalBool(expr, StatusCheckNone) == Ok(true))
              && (r == Ok(false) <==> evalBool(expr, StatusCheckNone) == Ok(false))
              && (r.Err? <==> evalBool(expr, StatusCheckNone).Err?)
              && (r.Err? ==> r.error == ContinueOnErrorExpressionError(expr, evalBool(expr, StatusCheckNone).error))
  {
    TrimSpaceEmptyIffAllSpace(expr);
    if |TrimSpace(expr)| == 0 then Ok(false)
    else
      match evalBool(expr, StatusCheckNone)
      case Err(e) => Err(ContinueOnErrorExpressionError(expr, e))
      case Ok(continueOnError) => Ok(continueOnError)
  }
}
