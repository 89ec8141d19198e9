/** `runStepExecutor`: the life cycle every step goes through in each of its
    stages — link it to the step processed before it, register its result,
    build its environment, gate it on its if-expression, run its body under
    its timeout, decide its conclusion, and apply the command files its body
    wrote. */
module StepExecutor {
  import opened Wrappers
  import opened Stages
  import opened Expressions
  import opened Conditions
  import opened Timeout
  import opened EnvMerge
  import opened RunnerModel
  import opened EnvComposer
  import opened FileCommands

  /** The index of the last of `steps` whose id is `id`, or -1 when none is. */
  function LastIndexWithId(steps: seq<StepModel>, id: string): (r: int)
    ensures -1 <= r < |steps|
    ensures r >= 0 ==> steps[r].id == id
    ensures forall j :: r < j < |steps| ==> steps[j].id != id
    decreases |steps|
  {
    if steps == [] then -1
    else if steps[|steps| - 1].id == id then |steps| - 1
    else LastIndexWithId(steps[..|steps| - 1], id)
  }

  /** The step that index designates, `null` for none. */
  function LastStepWithId(steps: seq<StepModel>, id: string): StepModel? {
    var i := LastIndexWithId(steps, id);
    if i < 0 then null else steps[i]
  }

  /** The closure at the head of `runStepExecutor`: scan the job's steps for
      the id of the step processed last, keeping the last match. */
  method PreviousStep(steps: seq<StepModel>, currentStep: string) returns (prev: StepModel?)
    ensures prev == null <==> forall i :: 0 <= i < |steps| ==> steps[i].id != currentStep
    ensures prev == LastStepWithId(steps, currentStep)
  {
    prev := null;
    for i := 0 to |steps|
      invariant prev == LastStepWithId(steps[..i], currentStep)
    {
      assert steps[..i + 1][..i] == steps[..i];
      if steps[i].id == currentStep {
        prev := steps[i];
      }
    }
    assert steps[..|steps|] == steps;
  }

  /** What a step's result says about it. */
  datatype Verdict = Verdict(outcome: StepStatus, conclusion: StepStatus)

  /** The outcome and conclusion `runStepExecutor` leaves, given the gate's
      answer, the body's error and the continue-on-error answer (consulted
      only when the body failed). */
  function StepVerdict(gate: Result<bool>, bodyErr: MaybeError, continueOnError: Result<bool>): (v: Verdict)
    ensures v.outcome == Skipped <==> gate == Ok(false)
    ensures v.conclusion == Skipped <==> gate == Ok(false)
    ensures v.outcome == Success <==> gate == Ok(true) && bodyErr == NoError
    ensures v.conclusion == Success <==>
              gate == Ok(true) && (bodyErr == NoError || continueOnError == Ok(true))
    ensures v.outcome == Failure ==> v.conclusion != Skipped
  {
    if gate.Err? then Verdict(Failure, Failure)
    else if !gate.value then Verdict(Skipped, Skipped)
    else if bodyErr == NoError then Verdict(Success, Success)
    else if continueOnError == Ok(true) then Verdict(Failure, Success)
    else Verdict(Failure, Failure)
  }

  /** Continue-on-error only ever changes the conclusion of a step whose
      body failed; the outcome records the failure either way. */
  lemma ContinueOnErrorOnlyAfterFailure(gate: Result<bool>, bodyErr: MaybeError, a: Result<bool>, b: Result<bool>)
    ensures StepVerdict(gate, bodyErr, a).outcome == StepVerdict(gate, bodyErr, b).outcome
    ensures bodyErr == NoError ==> StepVerdict(gate, bodyErr, a) == StepVerdict(gate, bodyErr, b)
  {
  }

  /** The head of `runStepExecutor`: link the step to the one processed
      before it, make it the current step, and in the main stage register a
      fresh result for it (successful until something says otherwise). */
  method EnterStep(rc: RunContext, step: Step, stage: Stage) returns (result: StepResult)
    modifies rc`currentStep, rc`stepResults, step.model`prev
    ensures fresh(result) && result.outcome == Success && result.conclusion == Success && result.outputs == map[]
    ensures step.model.prev == LastStepWithId(rc.steps, old(rc.currentStep))
    ensures rc.currentStep == step.model.id
    ensures rc.stepResults == if stage == Main then old(rc.stepResults)[step.model.id := result] else old(rc.stepResults)
  {
    var prev := PreviousStep(rc.steps, rc.currentStep);
    step.model.prev := prev;
    rc.currentStep := step.model.id;
    result := new StepResult();
    if stage == Main {
      rc.stepResults := rc.stepResults[rc.currentStep := result];
    }
  }

  /** The body's error handling in `runStepExecutor`: a failed body is a
      failed outcome; continue-on-error then decides the conclusion and
      whether the failure is still reported. An error evaluating it ends the
      step; otherwise the error to report after the command files is
      returned. */
  method SettleConclusion(model: StepModel, result: StepResult, evalBool: EvalBool, bodyErr: MaybeError)
    returns (orgErr: Result<MaybeError>)
    requires result.outcome == Success && result.conclusion == Success
    modifies result`outcome, result`conclusion
    ensures var continueOnError := IsContinueOnError(model.rawContinueOnError, evalBool);
            && Verdict(result.outcome, result.conclusion) == StepVerdict(Ok(true), bodyErr, continueOnError)
            && (orgErr.Err? <==> bodyErr.Failed? && continueOnError.Err?)
            && (orgErr.Err? ==> orgErr.error == continueOnError.error)
            && (orgErr.Ok? ==> orgErr.value == if continueOnError == Ok(true) then NoError else bodyErr)
  {
    if bodyErr == NoError {
      return Ok(NoError);
    }
    result.outcome := Failure;
    var continueOnError := IsContinueOnError(model.rawContinueOnError, evalBool);
    if continueOnError.Err? {
      result.conclusion := Failure;
      return Err(continueOnError.error);
    }
    if continueOnError.value {
      result.conclusion := Success;
      orgErr := Ok(NoError);
    } else {
      result.conclusion := Failure;
      orgErr := Ok(bodyErr);
    }
  }

  /** The part of `runStepExecutor` after the gate let the step run: point
      the command-file variables at their files, run the body under the
      step's timeout, settle the conclusion, and apply the command files. */
  method RunEnabledStep(rc: RunContext, step: Step, result: StepResult, evalBool: EvalBool, interpolate: Interpolator,
                        body: TimeoutScope -> MaybeError, readEnvFile: EnvFileReader, updateExtraPath: ExtraPathUpdater)
    returns (err: MaybeError, ghost envCalls: seq<FileCommand>, ghost stateCalls: seq<FileCommand>,
             ghost outputCalls: seq<FileCommand>)
    requires result.outcome == Success && result.conclusion == Success
    modifies result`outcome, result`conclusion, rc`fileCommands, step`env
    ensures step.env == WithFileCommandEnv(old(step.env), rc.actPath)
    ensures var bodyErr := body(EvaluateStepTimeout(interpolate, step.model.timeoutMinutes));
            var continueOnError := IsContinueOnError(step.model.rawContinueOnError, evalBool);
            && Verdict(result.outcome, result.conclusion) == StepVerdict(Ok(true), bodyErr, continueOnError)
            && (bodyErr.Failed? && continueOnError.Err? ==>
                  err == Failed(continueOnError.error) && rc.fileCommands == old(rc.fileCommands))
            && (!(bodyErr.Failed? && continueOnError.Err?) ==>
                  && err == ReconcileError(rc.actPath, readEnvFile, updateExtraPath,
                                           if continueOnError == Ok(true) then NoError else bodyErr)
                  && CommandsLogged(old(rc.fileCommands), rc.fileCommands, rc.actPath, readEnvFile,
                                    envCalls, stateCalls, outputCalls))
  {
    envCalls, stateCalls, outputCalls := [], [], [];
    step.env := WithFileCommandEnv(step.env, rc.actPath);

    var timeout := EvaluateStepTimeout(interpolate, step.model.timeoutMinutes);
    var bodyErr := body(timeout);
    var orgErr := SettleConclusion(step.model, result, evalBool, bodyErr);
    if orgErr.Err? {
      return Failed(orgErr.error), envCalls, stateCalls, outputCalls;
    }
    err, envCalls, stateCalls, outputCalls := ReconcileFileCommands(rc, readEnvFile, updateExtraPath, orgErr.value);
  }

  /** The part of `runStepExecutor` from the gate on: a gate that errs fails
      the step and reports the error, a gate that says no skips it, and
      otherwise the step runs. */
  method RunGatedStep(rc: RunContext, step: Step, result: StepResult, gate: Result<bool>,
                      evalBool: EvalBool, interpolate: Interpolator, body: TimeoutScope -> MaybeError,
                      readEnvFile: EnvFileReader, updateExtraPath: ExtraPathUpdater)
    returns (err: MaybeError, ghost envCalls: seq<FileCommand>, ghost stateCalls: seq<FileCommand>,
             ghost outputCalls: seq<FileCommand>)
    requires result.outcome == Success && result.conclusion == Success
    modifies result`outcome, result`conclusion, rc`fileCommands, step`env
    ensures gate != Ok(true) ==> Verdict(result.outcome, result.conclusion) == StepVerdict(gate, NoError, Ok(false))
    ensures gate != Ok(true) ==>
              && err == (if gate.Err? then Failed(gate.error) else NoError)
              && step.env == old(step.env)
              && rc.fileCommands == old(rc.fileCommands)
    ensures var bodyErr := body(EvaluateStepTimeout(interpolate, step.model.timeoutMinutes));
            var continueOnError := IsContinueOnError(step.model.rawContinueOnError, evalBool);
            gate == Ok(true) ==>
              && Verdict(result.outcome, result.conclusion) == StepVerdict(Ok(true), bodyErr, continueOnError)
              && step.env == WithFileCommandEnv(old(step.env), rc.actPath)
              && (bodyErr.Failed? && continueOnError.Err? ==>
                    err == Failed(continueOnError.error) && rc.fileCommands == old(rc.fileCommands))
              && (!(bodyErr.Failed? && continueOnError.Err?) ==>
                    && err == ReconcileError(rc.actPath, readEnvFile, updateExtraPath,
                                             if continueOnError == Ok(true) then NoError else bodyErr)
                    && CommandsLogged(old(rc.fileCommands), rc.fileCommands, rc.actPath, readEnvFile,
                                      envCalls, stateCalls, outputCalls))
  {
    envCalls, stateCalls, outputCalls := [], [], [];
    if gate.Err? {
      result.conclusion := Failure;
      result.outcome := Failure;
      return Failed(gate.error), envCalls, stateCalls, outputCalls;
    }
    if !gate.value {
      result.conclusion := Skipped;
      result.outcome := Skipped;
      return NoError, envCalls, stateCalls, outputCalls;
    }
    err, envCalls, stateCalls, outputCalls :=
      RunEnabledStep(rc, step, result, evalBool, interpolate, body, readEnvFile, updateExtraPath);
  }

  /** `runStepExecutor` for one stage of one step. The expression language,
      the step's body, the reading of command files and the PATH update come
      in as functions; `ifExpression` is the step's if-expression for this
      stage and `githubEnv` the variables `withGithubEnv` assigns. */
  method RunStepExecutor(rc: RunContext, step: Step, stage: Stage, ifExpression: string, githubEnv: Layer,
                         evalBool: EvalBool, interpolate: Interpolator, body: TimeoutScope -> MaybeError,
                         readEnvFile: EnvFileReader, updateExtraPath: ExtraPathUpdater)
    returns (err: MaybeError, result: StepResult, ghost setUp: map<string, string>,
             ghost envCalls: seq<FileCommand>, ghost stateCalls: seq<FileCommand>, ghost outputCalls: seq<FileCommand>)
    modifies rc`currentStep, rc`stepResults, rc`fileCommands, step`env, step.model`prev
    ensures fresh(result)
    // the previous-step link and the current step
    ensures step.model.prev == LastStepWithId(rc.steps, old(rc.currentStep))
    ensures rc.currentStep == step.model.id
    // the result is registered in the main stage only, before anything can fail
    ensures rc.stepResults == if stage == Main then old(rc.stepResults)[step.model.id := result] else old(rc.stepResults)
    // the environment is set up whether or not the step runs
    ensures StepEnvSetUp(rc, old(step.env), githubEnv, step.model.env, interpolate, setUp)
    ensures var gate := IsStepEnabled(ifExpression, stage, evalBool);
            var bodyErr := body(EvaluateStepTimeout(interpolate, step.model.timeoutMinutes));
            var continueOnError := IsContinueOnError(step.model.rawContinueOnError, evalBool);
            Verdict(result.outcome, result.conclusion) == StepVerdict(gate, bodyErr, continueOnError)
    // a step that does not run: the gate's error, or none when skipped
    ensures var gate := IsStepEnabled(ifExpression, stage, evalBool);
            gate != Ok(true) ==>
              && err == (if gate.Err? then Failed(gate.error) else NoError)
              && result.outputs == map[]
              && step.env == setUp
              && rc.fileCommands == old(rc.fileCommands)
    // a step that runs: its body finds the command files, and after it
    // they are applied unless continue-on-error could not be evaluated
    ensures var gate := IsStepEnabled(ifExpression, stage, evalBool);
            var bodyErr := body(EvaluateStepTimeout(interpolate, step.model.timeoutMinutes));
            var continueOnError := IsContinueOnError(step.model.rawContinueOnError, evalBool);
            gate == Ok(true) ==>
              && step.env == WithFileCommandEnv(setUp, rc.actPath)
              && (bodyErr.Failed? && continueOnError.Err? ==>
                    err == Failed(continueOnError.error) && rc.fileCommands == old(rc.fileCommands))
              && (!(bodyErr.Failed? && continueOnError.Err?) ==>
                    && err == ReconcileError(rc.actPath, readEnvFile, updateExtraPath,
                                             if continueOnError == Ok(true) then NoError else bodyErr)
                    && CommandsLogged(old(rc.fileCommands), rc.fileCommands, rc.actPath, readEnvFile,
                                      envCalls, stateCalls, outputCalls))
  {
    result := EnterStep(rc, step, stage);
    ghost var afterJob, composed, pass1, seen := SetupEnv(rc, step, githubEnv, interpolate);
    setUp := step.env;
    err, envCalls, stateCalls, outputCalls :=
      RunGatedStep(rc, step, result, IsStepEnabled(ifExpression, stage, evalBool), evalBool, interpolate, body, readEnvFile, updateExtraPath);
  }
}
