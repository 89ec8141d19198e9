/** `setupEnv` and `mergeEnv`: the step's environment is the job
    environment, the container's, the GitHub context variables and the step's
    own environment (`GetEnv()`: its `env:` with the `INPUT_` keys of `with:`),
    in that order of precedence, then interpolated in two passes. */
module EnvComposer {
  import opened Wrappers
  import opened Text
  import opened Expressions
  import opened EnvMerge
  import opened RunnerModel

  /** Keys bound to a step's `with:` inputs; they are interpolated last. */
  predicate IsInputKey(k: string) {
    HasPrefix(k, "INPUT_")
  }

  /** Pass 1: every key except the `INPUT_` ones is interpolated with a fresh
      evaluator for the job; no key is added or removed. */
  ghost predicate NonInputsInterpolated(env: map<string, string>, r: map<string, string>, interpolate: Interpolator) {
    && r.Keys == env.Keys
    && forall k :: k in env ==> r[k] == if IsInputKey(k) then env[k] else interpolate(JobEvaluator, env[k])
  }

  /** What an `INPUT_` key's evaluator saw: the environment after pass 1 for
      every other key, except that an `INPUT_` sibling may already hold its
      rewritten value (the evaluator is bound to the map being rewritten);
      the key itself is still unrewritten. */
  ghost predicate SeenDuringInputPass(view: map<string, string>, env: map<string, string>,
                                      r: map<string, string>, k: string) {
    && view.Keys == env.Keys
    && k in env && view[k] == env[k]
    && forall j :: j in env ==> view[j] == env[j] || (IsInputKey(j) && j in r && view[j] == r[j])
  }

  /** Pass 2: only `INPUT_` keys are interpolated, each with an evaluator over
      the step environment; no key is added or removed. */
  ghost predicate InputsInterpolated(env: map<string, string>, r: map<string, string>, interpolate: Interpolator,
                                     seen: map<string, map<string, string>>) {
    && r.Keys == env.Keys
    && (forall k :: k in env && !IsInputKey(k) ==> r[k] == env[k])
    && (forall k :: k in env && IsInputKey(k) ==>
          && k in seen
          && r[k] == interpolate(StepEnvEvaluator(seen[k]), env[k])
          && SeenDuringInputPass(seen[k], env, r, k))
  }

  /** The first loop of `setupEnv`. */
  method InterpolateNonInputs(env: map<string, string>, interpolate: Interpolator) returns (r: map<string, string>)
    ensures NonInputsInterpolated(env, r, interpolate)
  {
    r := env;
    var pending := env.Keys;
    while pending != {}
      invariant pending <= env.Keys
      invariant r.Keys == env.Keys
      invariant forall k :: k in env && (k in pending || IsInputKey(k)) ==> r[k] == env[k]
      invariant forall k :: k in env && k !in pending && !IsInputKey(k) ==> r[k] == interpolate(JobEvaluator, env[k])
      decreases pending
    {
      var k :| k in pending;
      if !IsInputKey(k) {
        r := r[k := interpolate(JobEvaluator, r[k])];
      }
      pending := pending - {k};
    }
  }

  /** The second loop of `setupEnv`: the evaluator is bound to the step
      environment itself, which this loop is rewriting. */
  method InterpolateInputs(env: map<string, string>, interpolate: Interpolator)
    returns (r: map<string, string>, ghost seen: map<string, map<string, string>>)
    ensures InputsInterpolated(env, r, interpolate, seen)
  {
    r := env;
    seen := map[];
    var pending := env.Keys;
    while pending != {}
      invariant pending <= env.Keys
      invariant r.Keys == env.Keys
      invariant forall k :: k in env && (k in pending || !IsInputKey(k)) ==> r[k] == env[k]
      invariant forall k :: k in env && k !in pending && IsInputKey(k) ==>
                  k in seen && r[k] == interpolate(StepEnvEvaluator(seen[k]), env[k])
      invariant forall k :: k in seen ==>
                  && seen[k].Keys == env.Keys
                  && k in env && seen[k][k] == env[k]
                  && forall j :: j in env ==> seen[k][j] == env[j] || (IsInputKey(j) && j !in pending && seen[k][j] == r[j])
      decreases pending
    {
      var k :| k in pending;
      if IsInputKey(k) {
        seen := seen[k := r];
        r := r[k := interpolate(StepEnvEvaluator(r), r[k])];
      }
      pending := pending - {k};
    }
  }

  /** The environment `setupEnv` leaves: `afterJob` is the step environment
      after `mergeEnv`'s merge of the job layers, `composed` after the GitHub
      variables and the step's own environment are added, and `final` after both
      interpolation passes. */
  ghost predicate EnvSetUp(rc: RunContext, env0: map<string, string>, githubEnv: Layer, stepEnv: Layer,
                           interpolate: Interpolator, afterJob: map<string, string>, composed: map<string, string>,
                           pass1: map<string, string>, seen: map<string, map<string, string>>, final: map<string, string>) {
    && MergedBy(rc.caseInsensitiveEnv, env0, rc.JobLayers(), afterJob)
    && MergedBy(rc.caseInsensitiveEnv, ApplyWrites(afterJob, githubEnv), [stepEnv], composed)
    && NonInputsInterpolated(composed, pass1, interpolate)
    && InputsInterpolated(pass1, final, interpolate, seen)
  }

  /** The same, for some intermediate environments. */
  ghost predicate StepEnvSetUp(rc: RunContext, env0: map<string, string>, githubEnv: Layer, stepEnv: Layer,
                               interpolate: Interpolator, final: map<string, string>) {
    exists afterJob, composed, pass1, seen ::
      EnvSetUp(rc, env0, githubEnv, stepEnv, interpolate, afterJob, composed, pass1, seen, final)
  }

  /** `mergeEnv`: the job environment, then the container's, merged in one
      call; then the GitHub context variables, which `withGithubEnv` assigns
      key by key (exact keys, whatever the backend's case rules). */
  method MergeEnv(rc: RunContext, step: Step, githubEnv: Layer) returns (ghost afterJob: map<string, string>)
    modifies step`env
    ensures MergedBy(rc.caseInsensitiveEnv, old(step.env), rc.JobLayers(), afterJob)
    ensures step.env == ApplyWrites(afterJob, githubEnv)
  {
    var merged := MergeIntoMap(rc.caseInsensitiveEnv, step.env, rc.JobLayers());
    afterJob := merged;
    var withGithub := MergeIntoMapCaseSensitive(merged, [githubEnv]);
    assert Flatten([githubEnv]) == githubEnv by {
      assert [githubEnv][..0] == [];
    }
    step.env := withGithub;
  }

  /** `setupEnv`: merge the job layers and the GitHub variables, then the
      step's own environment last so that nothing overrides it, then interpolate
      the non-input keys and, with the result in scope, the input keys. */
  method SetupEnv(rc: RunContext, step: Step, githubEnv: Layer, interpolate: Interpolator)
    returns (ghost afterJob: map<string, string>, ghost composed: map<string, string>,
             ghost pass1: map<string, string>, ghost seen: map<string, map<string, string>>)
    modifies step`env
    ensures EnvSetUp(rc, old(step.env), githubEnv, step.model.env, interpolate, afterJob, composed, pass1, seen, step.env)
    ensures StepEnvSetUp(rc, old(step.env), githubEnv, step.model.env, interpolate, step.env)
  {
    afterJob := MergeEnv(rc, step, githubEnv);
    var merged := MergeIntoMap(rc.caseInsensitiveEnv, step.env, [step.model.env]);
    step.env := merged;
    composed := merged;
    var first := InterpolateNonInputs(step.env, interpolate);
    step.env := first;
    pass1 := first;
    var second;
    second, seen := InterpolateInputs(step.env, interpolate);
    step.env := second;
    assert EnvSetUp(rc, old(step.env), githubEnv, step.model.env, interpolate, afterJob, composed, pass1, seen, step.env);
  }

  /** The step's own environment wins over the job, container and GitHub layers:
      each key it declares holds the declared value once merged (under its
      own name, or, on a case-insensitive backend and when no two of its keys
      differ only in case, under the casing already stored for its fold). */
  lemma StepEnvWins(rc: RunContext, env0: map<string, string>, githubEnv: Layer, stepEnv: Layer,
                    interpolate: Interpolator, afterJob: map<string, string>, composed: map<string, string>,
                    pass1: map<string, string>, seen: map<string, map<string, string>>, final: map<string, string>,
                    k: string)
    requires EnvSetUp(rc, env0, githubEnv, stepEnv, interpolate, afterJob, composed, pass1, seen, final)
    requires rc.caseInsensitiveEnv ==> FoldUnique(stepEnv)
    requires Lookup(stepEnv, k).Some?
    ensures !rc.caseInsensitiveEnv ==> k in composed && composed[k] == Lookup(stepEnv, k).value
    ensures rc.caseInsensitiveEnv ==>
              exists key :: key in composed && ToLower(key) == ToLower(k) && composed[key] == Lookup(stepEnv, k).value
  {
    LastLayerWins(rc.caseInsensitiveEnv, ApplyWrites(afterJob, githubEnv), stepEnv, composed, k);
  }

  /** Interpolation never adds or removes a key, leaves the value of every
      `INPUT_` key to pass 2 and of every other key to pass 1, and gives an
      `INPUT_` key an evaluator in which each non-input key already holds its
      pass-1 value. */
  lemma TwoPassInterpolation(composed: map<string, string>, pass1: map<string, string>, final: map<string, string>,
                             interpolate: Interpolator, seen: map<string, map<string, string>>, k: string, j: string)
    requires NonInputsInterpolated(composed, pass1, interpolate)
    requires InputsInterpolated(pass1, final, interpolate, seen)
    requires k in composed && j in composed
    ensures final.Keys == composed.Keys
    ensures !IsInputKey(k) ==> final[k] == interpolate(JobEvaluator, composed[k])
    ensures IsInputKey(k) ==> k in seen && final[k] == interpolate(StepEnvEvaluator(seen[k]), composed[k])
    ensures IsInputKey(k) && !IsInputKey(j) ==> seen[k][j] == interpolate(JobEvaluator, composed[j])
  {
  }
}
