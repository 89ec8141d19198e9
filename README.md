# Step execution engine of the act workflow runner

This project models `pkg/runner/step.go` of act, the local runner for
GitHub Actions workflows, in Dafny, and proves properties of the model.
That file drives one step of a job through one of its stages (pre, main or
post):

- It links the step to the step processed before it.
- It registers a `StepResult` for the step.
- It builds the step's environment: a merge of the job's environment, the
  container's environment, the GitHub context variables and the step's own
  environment (its `env:` together with the `INPUT_` keys of its `with:`),
  followed by two interpolation passes.
- It gates the step on its `if:` expression.
- It runs the step's body under its `timeout-minutes`.
- It settles the step's outcome and conclusion, using `continue-on-error`.
- It applies the command files the body wrote (`GITHUB_ENV`,
  `GITHUB_STATE`, `GITHUB_OUTPUT` and `GITHUB_PATH`).

The model keeps the source's shape:

- The run context, the step, its declaration and its result are classes
  whose fields the methods update.
- Every loop of the source is a `while` or `for` loop. Each loop carries
  invariants, and its method is proved against a specification function.
- A loop over a Go map picks its next key nondeterministically, because Go
  leaves the iteration order unspecified. A merge source is a sequence of
  key/value pairs in the order one `range` loop visits them.

Modules, from the leaves up:

- `Wrappers`: `Option`, `Result`, the error values.
- `Text`: ASCII `strings.ToLower`, `strings.TrimSpace` over the
  `unicode.IsSpace` set, `strconv.ParseInt(s, 10, 64)` and `path.Join`.
- `Stages`: `stepStage` and its `String`.
- `Expressions`: the interface to the expression language.
- `Conditions`: `isStepEnabled` and `isContinueOnError`.
- `Timeout`: `evaluateStepTimeout`.
- `EnvMerge`: `mergeIntoMap` and its case-sensitive and case-insensitive
  variants.
- `RunnerModel`: `RunContext`, `Step`, `StepModel` and `StepResult`.
- `EnvComposer`: `setupEnv` and `mergeEnv`.
- `FileCommands`: `processRunnerEnvFileCommand` and the command-file
  tail of `runStepExecutor`.
- `StepExecutor`: `runStepExecutor`.

Three points of the code's behaviour are worth noting:

- **An error evaluating the if-expression.** The code sets both outcome and
  conclusion to failure before returning the error
  (pkg/runner/step.go:205-211). `RunStepExecutor` and `StepVerdict` state
  this.
- **`setupEnv`'s error return.** It is always nil, so the early return at
  lines 95-98 cannot happen and has no counterpart in the model.
- **The step's timeout.** The body runs under the timeout as the code
  computes it, with Go's wrapping 64-bit duration (`Timeout.TimeoutFor`).
  The saturating duration of the finding below is a separate function,
  `Timeout.CorrectedTimeoutFor`.

## Model

| member | source | states |
|---|---|---|
| Stages.StageString | pkg/runner/step.go:40-50 | a stage code prints as "Unknown" exactly when it is none of the three stages |
| Stages.StageStringDistinguishesStages | pkg/runner/step.go:40-50 | the three stages print as three different names, none of them "Unknown" |
| Text.TrimSpaceEmptyIffAllSpace | pkg/runner/step.go:386 | the trimmed expression is empty exactly when every character is white space |
| Text.ParseInt10 | pkg/runner/step.go:316 | a parse succeeds only on a non-empty string, and its value fits in 64 bits |
| Text.ParseInt10RejectsNonDigit | pkg/runner/step.go:316 | a character other than a digit, except a leading sign, makes the parse fail |
| Text.ParseFormatRoundTrip | pkg/runner/step.go:316 | every 64-bit integer written in decimal parses back to itself |
| Text.ParseFormatOutOfRange | pkg/runner/step.go:316 | an integer outside 64 bits written in decimal is rejected |
| Text.ToLowerIdempotent | pkg/runner/step.go:421-426 | folding a folded key changes nothing, so re-folding a fold key stores it under the same fold |
| Text.JoinPathInjective | pkg/runner/step.go:54 | two different file names under one directory give two different paths |
| Conditions.IsStepEnabled | pkg/runner/step.go:365-382 | the evaluator's answer under the stage's default status check ("always" for post, "success" otherwise), with an evaluation error wrapped together with the expression text |
| Conditions.PreAndMainGateAlike | pkg/runner/step.go:368-373 | the pre and main stages gate the same way |
| Conditions.IsContinueOnError | pkg/runner/step.go:384-398 | a blank expression is false and cannot fail; otherwise it is the evaluator's answer under "none", with an error wrapped |
| Timeout.EvaluateStepTimeout | pkg/runner/step.go:313-321 | the timeout text is interpolated with the run context's evaluator, and `TimeoutFor` of the result decides the scope the body runs under |
| Timeout.TimeoutFor | pkg/runner/step.go:313-321 | the step is bounded exactly when the interpolated text is non-empty and parses as a 64-bit integer; the bound is the parsed number of minutes, with Go's wrapping product as its duration |
| Timeout.TimeoutForInteger | pkg/runner/step.go:313-321 | a decimal 64-bit integer bounds the step by exactly that many minutes |
| Timeout.TimeoutForNonInteger | pkg/runner/step.go:313-321 | an empty string, a lone sign, or text with any character other than a digit (a leading sign aside) leaves the step unbounded |
| Timeout.TimeoutForOutOfRange | pkg/runner/step.go:313-321 | a count of minutes outside 64 bits is rejected by the parse and leaves the step unbounded |
| Timeout.DurationAsWritten | pkg/runner/step.go:317 | the Go product of minutes and `time.Minute` is a 64-bit value, and it is exact where the product fits |
| Timeout.DurationAsWrittenOverflows | pkg/runner/step.go:317 | every timeout from 153722868 to 307445734 minutes is accepted, yet the step gets the product minus 2^64 as its duration, which is negative; the corrected timeout gives the largest duration instead |
| Timeout.DurationAsWrittenOf153722868 | pkg/runner/step.go:317 | the exact wrapped value of that duration, and its saturated value |
| Timeout.Duration | pkg/runner/step.go:317 | the corrected duration keeps the sign of the minutes, stays in 64 bits, and is exact where no overflow happens |
| Timeout.DurationMonotone | pkg/runner/step.go:317 | a longer timeout never gives a shorter deadline, and the corrected duration agrees with Go wherever Go does not overflow |
| Timeout.CorrectedTimeoutFor | pkg/runner/step.go:313-321 | the corrected timeout parses like the code's and bounds the same steps by the same minutes, but with the saturated duration, so a positive count always gives a positive duration |
| Timeout.CorrectedTimeoutAgreesWithoutOverflow | pkg/runner/step.go:317 | wherever Go's product fits in 64 bits, the corrected timeout is the code's timeout |
| EnvMerge.MergeIntoMapCaseSensitive | pkg/runner/step.go:408-414 | the result is the target with every source pair written in order |
| EnvMerge.ApplyWritesLastWins | pkg/runner/step.go:408-414 | after exact-key writes, a key is present if it was present or written, and holds its last written value, or else its old value |
| EnvMerge.CaseSensitiveMergeLastSourceWins | pkg/runner/step.go:408-414 | a key takes its value from the last source that has it; a key no source has keeps the target's value; no other key appears |
| EnvMerge.IndexFolds | pkg/runner/step.go:417-420 | the fold index records the fold of every target key, and each recorded casing is a target key with that fold |
| EnvMerge.FoldLayer | pkg/runner/step.go:421-432 | one source's loop equals that source's writes through `toKey` |
| EnvMerge.MergeIntoMapCaseInsensitive | pkg/runner/step.go:416-434 | the result is the target after every source pair is written through `toKey`, starting from an index of the target's folds |
| EnvMerge.CaseInsensitiveMergeSpec | pkg/runner/step.go:416-434 | a written fold lands under the target's recorded casing, or else under the first source casing, with the latest value; a target key whose fold is not written keeps its value, and so does a target key that is not its fold's recorded casing; only first casings of new folds are added |
| EnvMerge.FirstCasingLastValue | pkg/runner/step.go:416-434 | two sources writing one fold under two casings (say `PATH`, then `Path`) into a target without that fold leave one key, under the first casing, holding the second value |
| EnvMerge.FoldWritesShadowed | pkg/runner/step.go:421-431 | a target key that is not the casing recorded for its fold is never written, because `toKey` sends every write of that fold to the recorded casing |
| EnvMerge.FoldWritesKeepFoldDistinct | pkg/runner/step.go:416-434 | a target with no two keys differing only in case keeps that property after the merge |
| EnvMerge.MergeIntoMap | pkg/runner/step.go:400-406 | the merge follows the case-insensitive rules when the job container's environment ignores case, and the exact-key rules otherwise |
| EnvMerge.LastLayerWins | pkg/runner/step.go:326-328 | every key of the layer merged last holds that layer's value afterwards: under its own name, or, when case is ignored and no two keys of the layer differ only in case, under a key with the same fold |
| EnvComposer.InterpolateNonInputs | pkg/runner/step.go:330-335 | pass 1 keeps the key set, interpolates every non-`INPUT_` value with the job evaluator, and leaves `INPUT_` values alone |
| EnvComposer.InterpolateInputs | pkg/runner/step.go:338-343 | pass 2 keeps the key set and non-input values, and interpolates each `INPUT_` value with an evaluator over the live environment, in which that key is still unrewritten |
| EnvComposer.MergeEnv | pkg/runner/step.go:350-363 | the step environment is merged with the job environment and then the container's, and then the GitHub variables are assigned |
| EnvComposer.SetupEnv | pkg/runner/step.go:323-348 | the environment is the job layers, the GitHub variables and the step's `GetEnv()` (its `env:` with the `INPUT_` keys of `with:`) merged in that order, then interpolated in two passes |
| EnvComposer.StepEnvWins | pkg/runner/step.go:326-328 | each key of the step's `GetEnv()` holds its value in the composed environment, over every job, container and GitHub value; when case is ignored, this holds for a step environment with no two keys differing only in case |
| EnvComposer.TwoPassInterpolation | pkg/runner/step.go:330-343 | interpolation adds and removes no key; a non-input key is interpolated once by the job evaluator; an input key sees every non-input key already interpolated |
| FileCommands.WithFileCommandEnv | pkg/runner/step.go:229-244 | the five command variables point at their files under the act directory, and no other key changes |
| FileCommands.FileCommandPathsDistinct | pkg/runner/step.go:229-244 | the five command variables point at five different files |
| FileCommands.CallSetter | pkg/runner/step.go:58-60 | the setter is called once for each key of the parsed file, with its value, and the calls are appended to the log |
| FileCommands.ProcessRunnerEnvFileCommand | pkg/runner/step.go:52-62 | a read error is returned and no setter is called; otherwise no error, and one setter call per key of the file |
| FileCommands.CallsForShape | pkg/runner/step.go:58-60 | there are as many setter calls as keys, each carrying a key of the file and its value |
| FileCommands.CallsForDistinct | pkg/runner/step.go:58-60 | no key goes through the setter twice |
| FileCommands.CallsForCovers | pkg/runner/step.go:58-60 | no key of the file is missed |
| FileCommands.OncePerKeyCarriesItems | pkg/runner/step.go:58-60 | whatever the visiting order, the calls carry exactly the file's key/value pairs |
| FileCommands.ReconcileError | pkg/runner/step.go:289-309 | the step's error is the first failing command file (env, then state, then output), else the PATH update's error, else the body's remaining error |
| FileCommands.FileCommandErrorHidesBodyError | pkg/runner/step.go:289-309 | the body's error is reported exactly when the command files would otherwise report nothing, or this same error |
| FileCommands.ReconcileFileCommands | pkg/runner/step.go:289-309 | the command files are applied in order up to the first error, and the error returned is the one `ReconcileError` names |
| StepExecutor.LastIndexWithId | pkg/runner/step.go:71-79 | the index of the last step with the id, with no later match, or -1 when there is none |
| StepExecutor.PreviousStep | pkg/runner/step.go:71-79 | the scan finds the last step whose id is the current step, and null exactly when no step has that id |
| StepExecutor.StepVerdict | pkg/runner/step.go:205-287 | skipped exactly when the gate says no; a successful outcome exactly when the body ran and succeeded; a successful conclusion exactly when it ran and succeeded or continue-on-error held |
| StepExecutor.ContinueOnErrorOnlyAfterFailure | pkg/runner/step.go:267-287 | continue-on-error never changes the outcome, and changes nothing when the body succeeded |
| StepExecutor.EnterStep | pkg/runner/step.go:69-93 | the previous-step link is set, the current step becomes this step, and a fresh result, successful with no outputs, is registered in the main stage only |
| StepExecutor.SettleConclusion | pkg/runner/step.go:267-287 | a failed body is a failed outcome; continue-on-error decides the conclusion and whether the failure is still reported; an error evaluating it ends the step |
| StepExecutor.RunEnabledStep | pkg/runner/step.go:229-309 | a step that runs gets the command variables, its body's verdict, and the command files applied unless continue-on-error failed to evaluate |
| StepExecutor.RunGatedStep | pkg/runner/step.go:205-309 | a gate error fails the step and is returned; a false gate skips it with no error and no side effect; a true gate runs it |
| StepExecutor.RunStepExecutor | pkg/runner/step.go:64-311 | the whole life cycle: previous-step link, current step, registration in the main stage, the composed environment, the verdict, the returned error and the command-file calls; a step that does not run keeps a result with no outputs |

## Left out

- Trace file: the `syncfile` trace of the step graph (lines 66-67 and 102-204) and the message about it failing. It is output only and never read back.
- Logging: all logging, including the rendering of the step for the log and the `::add-mask::` substitution (lines 222-226), which only feeds the log.
- `JobContainer.Copy` (lines 246-261): creating the empty command files has its result ignored, and the container's file system is not part of this model.
- The expression language: `EvalBool` and `Interpolate` are function parameters. The model does not capture which step environment the step evaluator sees, so the if-expression and the continue-on-error expression get the same `EvalBool`.
- `getIfExpression`: the stage's if-expression text is a parameter.
- `withGithubEnv`: it is one layer of variables assigned by exact key. How they are derived from the GitHub context is not part of this model.
- `UpdateFromEnv`: it becomes a function from path to parsed pairs or an error. The file grammar is not part of this model.
- `UpdateExtraPath`: it becomes a function from path to error. Its effect on the PATH entries is not modelled.
- `rc.setEnv`, `rc.saveState` and `rc.setOutput`: their calls are recorded in order in `RunContext.fileCommands`. What they do to the run context is defined in run_context.go, which is not part of this model. For that reason nothing is stated about `StepResult.outputs` after a step that ran.
- Clocks and cancellation: the body receives the timeout scope it runs under. Whether a deadline expires is the body's business.
- Text.ToLower: folds ASCII letters only, because Unicode case mapping tables are not modelled. Every fold property is proved for this folding.
- Text.JoinPath: joins with one separator and does not clean `.`, `..` or repeated slashes as `path.Join` does. The act path and the command-file names contain none of them.
- The nil checks on the run context and on the job container in `mergeIntoMap` (lines 401-402) become the `caseInsensitiveEnv` flag, which is false when there is no container.
- rwf/src/main.ts is not part of this model.

## Findings

| source | as written | input that shows it | evidently intended | confidence | as-written member | corrected member |
|---|---|---|---|---|---|---|
| pkg/runner/step.go:317 | `time.Duration(n)*time.Minute` wraps around in 64 bits for n > 153722867 | `timeout-minutes: 153722868` (or any count up to 307445734): it parses, but the duration is -9223371993709551616 ns, so the body's context expires at once | a very large timeout bounds the step by the largest duration (saturation), not by a negative one | not executed; high that it wraps, medium on what is intended | Timeout.DurationAsWrittenOverflows | Timeout.CorrectedTimeoutFor |
