/** Runner file commands: the files a step's body may write under the act
    directory of the job container (`GITHUB_ENV`, `GITHUB_STATE`,
    `GITHUB_OUTPUT`, `GITHUB_PATH`, `GITHUB_STEP_SUMMARY`), and how they are
    applied once the body has finished. */
module FileCommands {
  import opened Wrappers
  import opened Text
  import opened RunnerModel

  /** The command files, relative to the act directory. */
  const OutputFileCommand := "workflow/outputcmd.txt"
  const StateFileCommand := "workflow/statecmd.txt"
  const PathFileCommand := "workflow/pathcmd.txt"
  const EnvFileCommand := "workflow/envs.txt"
  const SummaryFileCommand := "workflow/SUMMARY.md"

  /** `UpdateFromEnv` on a path of the job container: the key/value pairs the
      file holds, or the error reading or parsing it. */
  type EnvFileReader = string -> Result<map<string, string>>

  /** `rc.UpdateExtraPath` on the path file. */
  type ExtraPathUpdater = string -> MaybeError

  /** The variables a step's body finds its command files under. */
  function WithFileCommandEnv(env: map<string, string>, actPath: string): (r: map<string, string>)
    ensures r.Keys == env.Keys + {"GITHUB_OUTPUT", "GITHUB_STATE", "GITHUB_PATH", "GITHUB_ENV", "GITHUB_STEP_SUMMARY"}
    ensures r["GITHUB_OUTPUT"] == JoinPath(actPath, OutputFileCommand)
    ensures r["GITHUB_STATE"] == JoinPath(actPath, StateFileCommand)
    ensures r["GITHUB_PATH"] == JoinPath(actPath, PathFileCommand)
    ensures r["GITHUB_ENV"] == JoinPath(actPath, EnvFileCommand)
    ensures r["GITHUB_STEP_SUMMARY"] == JoinPath(actPath, SummaryFileCommand)
    ensures forall k :: k in env && k !in {"GITHUB_OUTPUT", "GITHUB_STATE", "GITHUB_PATH", "GITHUB_ENV", "GITHUB_STEP_SUMMARY"} ==>
                          r[k] == env[k]
  {
    env["GITHUB_OUTPUT" := JoinPath(actPath, OutputFileCommand)]
       ["GITHUB_STATE" := JoinPath(actPath, StateFileCommand)]
       ["GITHUB_PATH" := JoinPath(actPath, PathFileCommand)]
       ["GITHUB_ENV" := JoinPath(actPath, EnvFileCommand)]
       ["GITHUB_STEP_SUMMARY" := JoinPath(actPath, SummaryFileCommand)]
  }

  /** The five variables point at five different files, whatever the act
      directory, so no two commands share a file. */
  lemma FileCommandPathsDistinct(env: map<string, string>, actPath: string)
    ensures var r := WithFileCommandEnv(env, actPath);
            forall a, b :: a in r && b in r && a != b &&
                           a in {"GITHUB_OUTPUT", "GITHUB_STATE", "GITHUB_PATH", "GITHUB_ENV", "GITHUB_STEP_SUMMARY"} &&
                           b in {"GITHUB_OUTPUT", "GITHUB_STATE", "GITHUB_PATH", "GITHUB_ENV", "GITHUB_STEP_SUMMARY"}
                           ==> r[a] != r[b]
  {
    var files := [OutputFileCommand, StateFileCommand, PathFileCommand, EnvFileCommand, SummaryFileCommand];
    forall i, j | 0 <= i < 5 && 0 <= j < 5 && i != j
      ensures JoinPath(actPath, files[i]) != JoinPath(actPath, files[j])
    {
      JoinPathInjective(actPath, files[i], files[j]);
    }
  }

  /** `calls` are setter calls of one `kind` that visit the keys of `done`
      in some order, each once, with the value `parsed` holds for it. */
  ghost predicate CallsFor(calls: seq<FileCommand>, kind: CommandKind, parsed: map<string, string>, done: set<string>)
    decreases |calls|
  {
    if calls == [] then done == {}
    else
      var last := calls[|calls| - 1];
      && last.kind == kind && last.name in done && last.name in parsed && last.value == parsed[last.name]
      && CallsFor(calls[..|calls| - 1], kind, parsed, done - {last.name})
  }

  /** `processRunnerEnvFileCommand`'s loop, complete: every key of the file
      went through the setter exactly once. */
  ghost predicate OncePerKey(calls: seq<FileCommand>, kind: CommandKind, parsed: map<string, string>) {
    CallsFor(calls, kind, parsed, parsed.Keys)
  }

  /** Each call is one of this kind, with a key of `done` and its value,
      and there are as many calls as keys in `done`. */
  lemma {:induction false} CallsForShape(calls: seq<FileCommand>, kind: CommandKind, parsed: map<string, string>,
                                         done: set<string>)
    requires CallsFor(calls, kind, parsed, done)
    ensures done <= parsed.Keys && |calls| == |done|
    ensures forall i :: 0 <= i < |calls| ==>
              calls[i].kind == kind && calls[i].name in done && calls[i].value == parsed[calls[i].name]
    decreases |calls|
  {
    if calls != [] {
      var n := |calls| - 1;
      CallsForShape(calls[..n], kind, parsed, done - {calls[n].name});
      assert done == (done - {calls[n].name}) + {calls[n].name};
    }
  }

  /** No key is visited twice. */
  lemma {:induction false} CallsForDistinct(calls: seq<FileCommand>, kind: CommandKind, parsed: map<string, string>,
                                            done: set<string>)
    requires CallsFor(calls, kind, parsed, done)
    ensures forall i, j :: 0 <= i < j < |calls| ==> calls[i].name != calls[j].name
    decreases |calls|
  {
    if calls != [] {
      var n := |calls| - 1;
      var rest := calls[..n];
      CallsForDistinct(rest, kind, parsed, done - {calls[n].name});
      CallsForShape(rest, kind, parsed, done - {calls[n].name});
      assert forall i :: 0 <= i < n ==> calls[i] == rest[i];
    }
  }

  /** No key of `done` is missed. */
  lemma {:induction false} CallsForCovers(calls: seq<FileCommand>, kind: CommandKind, parsed: map<string, string>,
                                          done: set<string>, k: string)
    requires CallsFor(calls, kind, parsed, done)
    requires k in done
    ensures exists i :: 0 <= i < |calls| && calls[i].name == k
    decreases |calls|
  {
    if calls == [] {
      assert false;
    } else {
      var n := |calls| - 1;
      if calls[n].name != k {
        CallsForCovers(calls[..n], kind, parsed, done - {calls[n].name}, k);
        var i :| 0 <= i < n && calls[..n][i].name == k;
        assert calls[i].name == k;
      }
    }
  }

  /** Whatever order the keys were visited in, the calls carry exactly the
      file's key/value pairs, and there are as many calls as keys. */
  lemma OncePerKeyCarriesItems(calls: seq<FileCommand>, kind: CommandKind, parsed: map<string, string>)
    requires OncePerKey(calls, kind, parsed)
    ensures |calls| == |parsed|
    ensures (set i | 0 <= i < |calls| :: (calls[i].name, calls[i].value)) == parsed.Items
  {
    CallsForShape(calls, kind, parsed, parsed.Keys);
    var s := set i | 0 <= i < |calls| :: (calls[i].name, calls[i].value);
    forall p | p in parsed.Items
      ensures p in s
    {
      assert p.0 in parsed.Keys && parsed[p.0] == p.1;
      CallsForCovers(calls, kind, parsed, parsed.Keys, p.0);
      var i :| 0 <= i < |calls| && calls[i].name == p.0;
      assert (calls[i].name, calls[i].value) == p;
    }
    forall p | p in s
      ensures p in parsed.Items
    {
      var i :| 0 <= i < |calls| && (calls[i].name, calls[i].value) == p;
      assert calls[i].name in parsed && parsed[calls[i].name] == calls[i].value;
    }
  }

  /** One more key through the setter. */
  lemma CallsForStep(calls: seq<FileCommand>, kind: CommandKind, parsed: map<string, string>, done: set<string>, k: string)
    requires CallsFor(calls, kind, parsed, done)
    requires k in parsed && k !in done
    ensures CallsFor(calls + [FileCommand(kind, k, parsed[k])], kind, parsed, done + {k})
  {
    var next := calls + [FileCommand(kind, k, parsed[k])];
    assert next[..|next| - 1] == calls;
    assert (done + {k}) - {k} == done;
  }

  /** The loop of `processRunnerEnvFileCommand`: every pair of the parsed
      file goes through the setter, in the map's iteration order. */
  method CallSetter(rc: RunContext, kind: CommandKind, env: map<string, string>) returns (ghost calls: seq<FileCommand>)
    modifies rc`fileCommands
    ensures OncePerKey(calls, kind, env)
    ensures rc.fileCommands == old(rc.fileCommands) + calls
  {
    calls := [];
    var pending := env.Keys;
    ghost var done: set<string> := {};
    while pending != {}
      invariant done + pending == env.Keys && done !! pending
      invariant rc.fileCommands == old(rc.fileCommands) + calls
      invariant CallsFor(calls, kind, env, done)
      decreases pending
    {
      var k :| k in pending;
      var call := FileCommand(kind, k, env[k]);
      CallsForStep(calls, kind, env, done, k);
      rc.fileCommands := rc.fileCommands + [call];
      calls := calls + [call];
      done := done + {k};
      pending := pending - {k};
    }
  }

  /** `processRunnerEnvFileCommand`: read the command file under the act
      directory and, if that succeeds, pass every pair to the setter; a read
      error is returned and the setter is not called at all. */
  method ProcessRunnerEnvFileCommand(rc: RunContext, fileName: string, kind: CommandKind, readEnvFile: EnvFileReader)
    returns (err: MaybeError, ghost calls: seq<FileCommand>)
    modifies rc`fileCommands
    ensures var read := readEnvFile(JoinPath(rc.actPath, fileName));
            && (read.Err? ==> err == Failed(read.error) && calls == [])
            && (read.Ok? ==> err == NoError && OncePerKey(calls, kind, read.value))
    ensures rc.fileCommands == old(rc.fileCommands) + calls
  {
    var read := readEnvFile(JoinPath(rc.actPath, fileName));
    if read.Err? {
      return Failed(read.error), [];
    }
    calls := CallSetter(rc, kind, read.value);
    err := NoError;
  }

  /** The error the reconciliation ends with, given the body's own error
      `orgErr` (already cleared when continue-on-error applied): the first
      failing command file, else the PATH update's error, else `orgErr`. */
  function ReconcileError(actPath: string, readEnvFile: EnvFileReader, updateExtraPath: ExtraPathUpdater,
                          orgErr: MaybeError): (r: MaybeError)
    ensures var env := readEnvFile(JoinPath(actPath, EnvFileCommand));
            var state := readEnvFile(JoinPath(actPath, StateFileCommand));
            var output := readEnvFile(JoinPath(actPath, OutputFileCommand));
            var extra := updateExtraPath(JoinPath(actPath, PathFileCommand));
            && (r == NoError <==> env.Ok? && state.Ok? && output.Ok? && extra == NoError && orgErr == NoError)
            && (env.Err? ==> r == Failed(env.error))
            && (env.Ok? && state.Err? ==> r == Failed(state.error))
            && (env.Ok? && state.Ok? && output.Err? ==> r == Failed(output.error))
            && (env.Ok? && state.Ok? && output.Ok? && extra.Failed? ==> r == extra)
            && (env.Ok? && state.Ok? && output.Ok? && extra == NoError ==> r == orgErr)
  {
    var env := readEnvFile(JoinPath(actPath, EnvFileCommand));
    var state := readEnvFile(JoinPath(actPath, StateFileCommand));
    var output := readEnvFile(JoinPath(actPath, OutputFileCommand));
    if env.Err? then Failed(env.error)
    else if state.Err? then Failed(state.error)
    else if output.Err? then Failed(output.error)
    else
      match updateExtraPath(JoinPath(actPath, PathFileCommand))
      case Failed(e) => Failed(e)
      case NoError => orgErr
  }

  /** A failure in the command files hides the body's failure, and the
      body's failure is reported only when every command file applied. */
  lemma FileCommandErrorHidesBodyError(actPath: string, readEnvFile: EnvFileReader,
                                       updateExtraPath: ExtraPathUpdater, bodyErr: Error)
    ensures (ReconcileError(actPath, readEnvFile, updateExtraPath, Failed(bodyErr)) == Failed(bodyErr)) <==>
            (|| ReconcileError(actPath, readEnvFile, updateExtraPath, NoError) == NoError
             || ReconcileError(actPath, readEnvFile, updateExtraPath, NoError) == Failed(bodyErr))
  {
  }

  /** The setter calls the reconciliation makes: the environment file's
      pairs through `setEnv`, then the state file's through `saveState`, then
      the output file's through `setOutput`, each only when every earlier file
      was read. */
  ghost predicate CommandsLogged(log0: seq<FileCommand>, log1: seq<FileCommand>, actPath: string,
                                 readEnvFile: EnvFileReader, envCalls: seq<FileCommand>,
                                 stateCalls: seq<FileCommand>, outputCalls: seq<FileCommand>) {
    var env := readEnvFile(JoinPath(actPath, EnvFileCommand));
    var state := readEnvFile(JoinPath(actPath, StateFileCommand));
    var output := readEnvFile(JoinPath(actPath, OutputFileCommand));
    && log1 == log0 + envCalls + stateCalls + outputCalls
    && (env.Err? ==> envCalls == [])
    && (env.Ok? ==> OncePerKey(envCalls, SetEnv, env.value))
    && (env.Err? || state.Err? ==> stateCalls == [])
    && (env.Ok? && state.Ok? ==> OncePerKey(stateCalls, SaveState, state.value))
    && (env.Err? || state.Err? || output.Err? ==> outputCalls == [])
    && (env.Ok? && state.Ok? && output.Ok? ==> OncePerKey(outputCalls, SetOutput, output.value))
  }

  /** The tail of `runStepExecutor`: apply the three key/value command files
      in order, then the PATH file, stopping at the first error; the body's
      error comes last. */
  method ReconcileFileCommands(rc: RunContext, readEnvFile: EnvFileReader, updateExtraPath: ExtraPathUpdater,
                               orgErr: MaybeError)
    returns (err: MaybeError, ghost envCalls: seq<FileCommand>, ghost stateCalls: seq<FileCommand>,
             ghost outputCalls: seq<FileCommand>)
    modifies rc`fileCommands
    ensures err == ReconcileError(rc.actPath, readEnvFile, updateExtraPath, orgErr)
    ensures CommandsLogged(old(rc.fileCommands), rc.fileCommands, rc.actPath, readEnvFile,
                           envCalls, stateCalls, outputCalls)
  {
    stateCalls, outputCalls := [], [];
    err, envCalls := ProcessRunnerEnvFileCommand(rc, EnvFileCommand, SetEnv, readEnvFile);
    if err.Failed? {
      return;
    }
    err, stateCalls := ProcessRunnerEnvFileCommand(rc, StateFileCommand, SaveState, readEnvFile);
    if err.Failed? {
      return;
    }
    err, outputCalls := ProcessRunnerEnvFileCommand(rc, OutputFileCommand, SetOutput, readEnvFile);
    if err.Failed? {
      return;
    }
    err := updateExtraPath(JoinPath(rc.actPath, PathFileCommand));
    if err.Failed? {
      return;
    }
    if orgErr.Failed? {
      return orgErr, envCalls, stateCalls, outputCalls;
    }
  }
}
