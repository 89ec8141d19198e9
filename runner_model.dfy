/** The per-job state the step executor reads and updates: the steps of the
    job, the id of the step processed last, the result recorded for each
    step, and what the callback files have been applied as. */
module RunnerModel {
  import opened Wrappers
  import opened EnvMerge

  datatype StepStatus = Success | Failure | Skipped

  /** The setter a callback file is applied through: `rc.setEnv`,
      `rc.saveState` or `rc.setOutput`. */
  datatype CommandKind = SetEnv | SaveState | SetOutput

  /** One setter call: the setter, the `name` it receives (as the single-key
      parameter map {"name": name}) and the value. */
  datatype FileCommand = FileCommand(kind: CommandKind, name: string, value: string)

  /** A step as the workflow declares it, plus the back-reference to the step
      processed before it. */
  class StepModel {
    const id: string
    const rawContinueOnError: string
    const timeoutMinutes: string
    /** `GetEnv()`: the step's declared `env:` together with the `INPUT_`
        keys of its `with:` inputs. */
    const env: Layer
    var prev: StepModel?

    constructor (id: string, rawContinueOnError: string, timeoutMinutes: string, env: Layer)
      ensures this.id == id && this.rawContinueOnError == rawContinueOnError
      ensures this.timeoutMinutes == timeoutMinutes && this.env == env
      ensures prev == null
    {
      this.id := id;
      this.rawContinueOnError := rawContinueOnError;
      this.timeoutMinutes := timeoutMinutes;
      this.env := env;
      prev := null;
    }
  }

  /** `model.StepResult`. The outcome says what happened to the body; the
      conclusion whether the job treats it as failed. */
  class StepResult {
    var outcome: StepStatus
    var conclusion: StepStatus
    var outputs: map<string, string>

    constructor ()
      ensures outcome == Success && conclusion == Success && outputs == map[]
    {
      outcome := Success;
      conclusion := Success;
      outputs := map[];
    }
  }

  /** A step being run: its declaration and the environment built for it. */
  class Step {
    const model: StepModel
    var env: map<string, string>

    constructor (model: StepModel)
      ensures this.model == model && env == map[]
    {
      this.model := model;
      env := map[];
    }
  }

  /** `RunContext`, reduced to what the step executor touches. */
  class RunContext {
    var currentStep: string
    var stepResults: map<string, StepResult>
    /** `rc.steps()`: the job's steps in declaration order. */
    const steps: seq<StepModel>
    /** `rc.GetEnv()`. */
    const env: Layer
    /** The environment of the job's container, if the job runs in one. */
    const containerEnv: Option<Layer>
    /** The job container exists and its environment ignores case. */
    const caseInsensitiveEnv: bool
    /** `rc.JobContainer.GetActPath()`. */
    const actPath: string
    /** Every setter call the callback files have caused so far, in order. */
    var fileCommands: seq<FileCommand>

    constructor (steps: seq<StepModel>, env: Layer, containerEnv: Option<Layer>, caseInsensitiveEnv: bool, actPath: string)
      ensures this.steps == steps && this.env == env && this.containerEnv == containerEnv
      ensures this.caseInsensitiveEnv == caseInsensitiveEnv && this.actPath == actPath
      ensures currentStep == "" && stepResults == map[] && fileCommands == []
    {
      this.steps := steps;
      this.env := env;
      this.containerEnv := containerEnv;
      this.caseInsensitiveEnv := caseInsensitiveEnv;
      this.actPath := actPath;
      currentStep := "";
      stepResults := map[];
      fileCommands := [];
    }

    /** The layers `mergeEnv` merges first: the job environment, then the
        container's when there is a container. */
    function JobLayers(): seq<Layer> {
      if containerEnv.Some? then [env, containerEnv.value] else [env]
    }
  }
}
