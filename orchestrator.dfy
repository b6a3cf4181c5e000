/** The step loop of `process_message`: for each step of the pipeline, in
    order, derive its environment, stage its inputs (the request's files
    for the first step, the previous step's cache for every later one),
    make the staged experiment descriptor's path relative to `BASE_DIR`,
    run the engine, read the experiment descriptor and the results, and
    publish them. The first failure ends the request.

    The filesystem and the engine are questions asked per step (`Disk`);
    the remote repository is the call log of `Publish`. */
module Orchestrator {
  import opened Base
  import opened Values
  import opened Paths
  import opened Environment
  import opened Staging
  import opened Experiment
  import opened Publish
  import opened Results

  /** The extractor's settings: the docker volume to mount, the shared
      working space, the request's host and the folder holding the
      helper script. */
  datatype Config = Config(namedVolume: string, workingSpace: string, host: string, installDir: string)

  /** The request: its resource description and the local paths of its
      files. */
  datatype Request = Request(localPaths: seq<string>, resource: Entries)

  /** What the filesystem and the engine answer while step `n` (counted
      from 1) is handled: the name `mkdtemp` picks, the kind of a path and
      a folder's listing, whether a path exists before and after the
      engine runs, whether the engine finishes within the wait limit, and
      the parsed experiment descriptor (read as YAML when the flag is set,
      as JSON otherwise) and results descriptor, None when a file cannot be
      read or parsed. */
  datatype Disk = Disk(
    tempName: string,
    kind: nat -> string -> PathKind,
    listDir: nat -> string -> Option<seq<string>>,
    existsBefore: nat -> string -> bool,
    existsAfter: nat -> string -> bool,
    finished: nat -> bool,
    experiment: nat -> (string, bool) -> Option<Value>,
    results: nat -> string -> Option<Value>)

  /** The repository's answers, `repr` for lists and mappings, and the
      pipeline's string encryption. */
  datatype Services = Services(replies: Replies, render: Value -> string, encrypt: Value -> Option<string>)

  /** A step after staging: its environment with the experiment file made
      relative, the copies made, and the staged descriptor's path. */
  datatype Staged = Staged(env: StepEnv, copies: seq<Copy>, experimentPath: string)

  /** What a completed step leaves: where its inputs came from, its
      staging, what its experiment descriptor contributed, and whether its
      results were accepted (a rejected code does not end the request). */
  datatype StepTrace = StepTrace(source: Source, staged: Staged, settings: Settings, accepted: bool)

  /** Python's `s[n:]`, empty when `n` is past the end. */
  function SliceFrom(s: string, n: nat): (r: string)
    ensures n <= |s| ==> s == s[..n] + r
    ensures n > |s| ==> r == ""
  {
    if n <= |s| then s[n..] else ""
  }

  /** `EXPERIMENT_METADATA_FILENAME` after staging: the path below
      `BASE_DIR` when the staged descriptor lies there, unchanged
      otherwise. */
  function Relativize(env: StepEnv, path: string): (r: StepEnv)
    ensures StartsWith(path, env.baseDir) ==> env.baseDir + r.experimentFile == path
    ensures !StartsWith(path, env.baseDir) ==> r == env
    ensures r.(experimentFile := env.experimentFile) == env
  {
    if StartsWith(path, env.baseDir) then env.(experimentFile := path[|env.baseDir|..]) else env
  }

  /** Environment and staging of step `n`. */
  function Prepare(cfg: Config, disk: Disk, req: Request, n: nat, step: StepDefinition, source: Source,
                   workingFolder: string, subfolder: string): Result<Staged>
  {
    match EnvJson(workingFolder, subfolder, cfg.namedVolume, step, req.localPaths)
    case Err(e) => Err(e)
    case Ok(env) =>
      match SourceList(source, disk.listDir(n))
      case Err(e) => Err(e)
      case Ok(sources) => StageFrom(cfg, disk, n, env, sources)
  }

  /** Staging from the listed sources of step `n`: the copies of
      `relocate_files`, then the checks on the staged descriptor's path. */
  function StageFrom(cfg: Config, disk: Disk, n: nat, env: StepEnv, sources: seq<string>): Result<Staged> {
    var copies := StagedCopies(env, StagingDir(env), sources, disk.kind(n)) + [ScriptCopy(env, cfg.installDir)];
    match LastExperiment(env, sources)
    case None => Err(NoExperimentMetadata)
    case Some(path) =>
      if disk.existsBefore(n)(path) && !StartsWith(path, env.baseDir) then Err(ExperimentOutsideBase(path))
      else Ok(Staged(Relativize(env, path), copies, path))
  }

  /** A successful staging records the last matching source, and its
      environment differs from `env` at most in the descriptor's name. */
  lemma StagedFrom(cfg: Config, disk: Disk, n: nat, env: StepEnv, sources: seq<string>)
    requires StageFrom(cfg, disk, n, env, sources).Ok?
    ensures var s := StageFrom(cfg, disk, n, env, sources).value;
            && LastExperiment(env, sources) == Some(s.experimentPath)
            && s.env == Relativize(env, s.experimentPath)
            && (disk.existsBefore(n)(s.experimentPath) ==> StartsWith(s.experimentPath, env.baseDir))
  {
  }

  /** The descriptor format follows the extension of the path. */
  predicate IsYamlPath(path: string) {
    SplitExt(path).1 in {".yml", ".yaml"}
  }

  /** Running step `n` once staged: wait for the engine, read the
      experiment descriptor, then read and publish the results. */
  function Execute(cfg: Config, disk: Disk, svc: Services, req: Request, n: nat, step: StepDefinition,
                   env: StepEnv, log: seq<Call>): Out<(Settings, bool)>
  {
    if !disk.finished(n) then Out(Err(ProcessTimedOut(n)), log)
    else
      var experimentPath := Join(env.baseDir, env.experimentFile);
      match disk.experiment(n)(experimentPath, IsYamlPath(experimentPath))
      case None => Out(Err(ExperimentUnreadable(experimentPath)), log)
      case Some(md) =>
        match ExperimentSettings(md, svc.render, svc.encrypt)
        case Err(e) => Out(Err(e), log)
        case Ok(settings) =>
          if !disk.existsAfter(n)(env.resultsPath) then Out(Err(ResultsNotFound(env.resultsPath)), log)
          else match disk.results(n)(env.resultsPath)
            case None => Out(Err(ResultsUnreadable(env.resultsPath)), log)
            case Some(proc) =>
              var r := ResultsJson(cfg.host, step, svc.replies, settings.info, proc, req.resource, log);
              if r.result.Err? then Out(Err(r.result.error), r.log) else Out(Ok((settings, r.result.value)), r.log)
  }

  /** One iteration of the step loop. */
  function StepOutcome(cfg: Config, disk: Disk, svc: Services, req: Request, n: nat, step: StepDefinition,
                       source: Source, workingFolder: string, subfolder: string, log: seq<Call>): Out<StepTrace>
  {
    match Prepare(cfg, disk, req, n, step, source, workingFolder, subfolder)
    case Err(e) => Out(Err(e), log)
    case Ok(staged) =>
      var e := Execute(cfg, disk, svc, req, n, step, staged.env, log);
      if e.result.Err? then Out(Err(e.result.error), e.log)
      else Out(Ok(StepTrace(source, staged, e.result.value.0, e.result.value.1)), e.log)
  }

  /** The first step stages the request's files; every later step the
      cache of the step before it. */
  function SourceOf(req: Request, previous: seq<StepTrace>): Source {
    if previous == [] then Resources(req.localPaths)
    else Folder(previous[|previous| - 1].staged.env.cacheDir)
  }

  /** The steps run in order; the first failure ends the run. */
  function RunSteps(cfg: Config, disk: Disk, svc: Services, req: Request, steps: seq<StepDefinition>,
                    workingFolder: string, subfolder: string, log: seq<Call>): (r: Out<seq<StepTrace>>)
    ensures r.result.Ok? ==> |r.result.value| == |steps|
    decreases |steps|
  {
    if steps == [] then Out(Ok([]), log)
    else
      var prev := RunSteps(cfg, disk, svc, req, steps[..|steps| - 1], workingFolder, subfolder, log);
      if prev.result.Err? then prev
      else
        var one := StepOutcome(cfg, disk, svc, req, |steps|, steps[|steps| - 1], SourceOf(req, prev.result.value),
                               workingFolder, subfolder, prev.log);
        if one.result.Err? then Out(Err(one.result.error), one.log)
        else Out(Ok(prev.result.value + [one.result.value]), one.log)
  }

  /** The private working folder `mkdtemp` creates in the working space. */
  function WorkingFolder(cfg: Config, disk: Disk): string {
    Join(cfg.workingSpace, disk.tempName)
  }

  /** `process_message` from the configuration checks to the end of the
      step loop. */
  function Message(cfg: Config, disk: Disk, svc: Services, req: Request, log: seq<Call>): Out<seq<StepTrace>> {
    if cfg.namedVolume == "" then Out(Err(NoNamedVolume), log)
    else if cfg.workingSpace == "" then Out(Err(NoWorkingSpace), log)
    else
      var workingFolder := WorkingFolder(cfg, disk);
      RunSteps(cfg, disk, svc, req, Workflow, workingFolder, SliceFrom(workingFolder, |cfg.workingSpace|), log)
  }

  /** Environment and staging, as the source performs them. */
  method PrepareStep(cfg: Config, disk: Disk, req: Request, n: nat, step: StepDefinition, source: Source,
                     workingFolder: string, subfolder: string) returns (r: Result<Staged>)
    ensures r == Prepare(cfg, disk, req, n, step, source, workingFolder, subfolder)
  {
    var env := CreateEnvJson(workingFolder, subfolder, cfg.namedVolume, step, req.localPaths);
    if env.Err? {
      return Err(env.error);
    }
    var relocated := RelocateFiles(env.value, source, disk.kind(n), disk.listDir(n), cfg.installDir);
    if relocated.Err? {
      return Err(relocated.error);
    }
    if relocated.value.experiment.None? {
      return Err(NoExperimentMetadata);
    }
    var path := relocated.value.experiment.value;
    var e := env.value;
    if disk.existsBefore(n)(path) && !StartsWith(path, e.baseDir) {
      return Err(ExperimentOutsideBase(path));
    }
    if StartsWith(path, e.baseDir) {
      e := e.(experimentFile := path[|e.baseDir|..]);
    }
    r := Ok(Staged(e, relocated.value.copies, path));
  }

  /** Waiting for the engine, reading the descriptors and publishing, as
      the source performs them. */
  method ExecuteStep(cfg: Config, disk: Disk, svc: Services, req: Request, n: nat, step: StepDefinition,
                     env: StepEnv, log: seq<Call>) returns (out: Out<(Settings, bool)>)
    ensures out == Execute(cfg, disk, svc, req, n, step, env, log)
  {
    if !disk.finished(n) {
      return Out(Err(ProcessTimedOut(n)), log);
    }
    var experimentPath := Join(env.baseDir, env.experimentFile);
    var md := disk.experiment(n)(experimentPath, IsYamlPath(experimentPath));
    if md.None? {
      return Out(Err(ExperimentUnreadable(experimentPath)), log);
    }
    var settings := ReadExperiment(md.value, svc.render, svc.encrypt);
    if settings.Err? {
      return Out(Err(settings.error), log);
    }
    if !disk.existsAfter(n)(env.resultsPath) {
      return Out(Err(ResultsNotFound(env.resultsPath)), log);
    }
    var proc := disk.results(n)(env.resultsPath);
    if proc.None? {
      return Out(Err(ResultsUnreadable(env.resultsPath)), log);
    }
    var accepted := ProcessResultsJson(cfg.host, step, svc.replies, settings.value.info, proc.value, req.resource, log);
    if accepted.result.Err? {
      return Out(Err(accepted.result.error), accepted.log);
    }
    out := Out(Ok((settings.value, accepted.result.value)), accepted.log);
  }

  method RunStep(cfg: Config, disk: Disk, svc: Services, req: Request, n: nat, step: StepDefinition,
                 source: Source, workingFolder: string, subfolder: string, log: seq<Call>)
    returns (out: Out<StepTrace>)
    ensures out == StepOutcome(cfg, disk, svc, req, n, step, source, workingFolder, subfolder, log)
  {
    var staged := PrepareStep(cfg, disk, req, n, step, source, workingFolder, subfolder);
    if staged.Err? {
      return Out(Err(staged.error), log);
    }
    var e := ExecuteStep(cfg, disk, svc, req, n, step, staged.value.env, log);
    if e.result.Err? {
      return Out(Err(e.result.error), e.log);
    }
    out := Out(Ok(StepTrace(source, staged.value, e.result.value.0, e.result.value.1)), e.log);
  }

  /** `process_message`: the configuration checks, the working folder, and
      the loop over the pipeline's steps carrying the previous step's
      cache folder. */
  method ProcessMessage(cfg: Config, disk: Disk, svc: Services, req: Request, log: seq<Call>)
    returns (out: Out<seq<StepTrace>>)
    ensures out == Message(cfg, disk, svc, req, log)
  {
    if cfg.namedVolume == "" {
      return Out(Err(NoNamedVolume), log);
    }
    if cfg.workingSpace == "" {
      return Out(Err(NoWorkingSpace), log);
    }
    var workingFolder := Join(cfg.workingSpace, disk.tempName);
    var workingSubfolder := SliceFrom(workingFolder, |cfg.workingSpace|);
    out := RunWorkflow(cfg, disk, svc, req, Workflow, workingFolder, workingSubfolder, log);
  }

  /** The step loop, carrying the previous step's environment and cache
      folder from one iteration to the next. */
  method RunWorkflow(cfg: Config, disk: Disk, svc: Services, req: Request, steps: seq<StepDefinition>,
                     workingFolder: string, workingSubfolder: string, log: seq<Call>)
    returns (out: Out<seq<StepTrace>>)
    ensures out == RunSteps(cfg, disk, svc, req, steps, workingFolder, workingSubfolder, log)
  {
    var env: Option<StepEnv> := None;
    var stepNumber := 0;
    var previousCache: Option<string> := None;
    var traces: seq<StepTrace> := [];
    var calls := log;
    while stepNumber < |steps|
      invariant 0 <= stepNumber <= |steps|
      invariant RunSteps(cfg, disk, svc, req, steps[..stepNumber], workingFolder, workingSubfolder, log)
                == Out(Ok(traces), calls)
      invariant |traces| == stepNumber
      invariant env.None? <==> stepNumber == 0
      invariant stepNumber > 0 ==> env == Some(traces[stepNumber - 1].staged.env)
    {
      RunStepsNext(cfg, disk, svc, req, steps, stepNumber, workingFolder, workingSubfolder, log);
      var step := steps[stepNumber];
      stepNumber := stepNumber + 1;
      var one;
      one, previousCache := HandOff(cfg, disk, svc, req, stepNumber, step, env, previousCache, traces,
                                    workingFolder, workingSubfolder, calls);
      if one.result.Err? {
        RunStepsErrPersists(cfg, disk, svc, req, steps, stepNumber, workingFolder, workingSubfolder, log);
        return Out(Err(one.result.error), one.log);
      }
      env := Some(one.result.value.staged.env);
      traces := traces + [one.result.value];
      calls := one.log;
    }
    assert steps[..stepNumber] == steps;
    out := Out(Ok(traces), calls);
  }

  /** One iteration: the cache of the previous environment, if any, becomes
      the source of this step. */
  method HandOff(cfg: Config, disk: Disk, svc: Services, req: Request, stepNumber: nat, step: StepDefinition,
                 env: Option<StepEnv>, previousCache: Option<string>, traces: seq<StepTrace>,
                 workingFolder: string, workingSubfolder: string, calls: seq<Call>)
    returns (one: Out<StepTrace>, cache: Option<string>)
    requires stepNumber == |traces| + 1
    requires env.None? <==> traces == []
    requires traces != [] ==> env == Some(traces[|traces| - 1].staged.env)
    ensures one == StepOutcome(cfg, disk, svc, req, stepNumber, step, SourceOf(req, traces),
                               workingFolder, workingSubfolder, calls)
  {
    cache := previousCache;
    if env.Some? {
      cache := Some(env.value.cacheDir);
    }
    var source := if stepNumber <= 1 then Resources(req.localPaths) else Folder(cache.value);
    one := RunStep(cfg, disk, svc, req, stepNumber, step, source, workingFolder, workingSubfolder, calls);
  }

  lemma RunStepsNext(cfg: Config, disk: Disk, svc: Services, req: Request, steps: seq<StepDefinition>, k: nat,
                     workingFolder: string, subfolder: string, log: seq<Call>)
    requires k < |steps|
    ensures var prev := RunSteps(cfg, disk, svc, req, steps[..k], workingFolder, subfolder, log);
            prev.result.Ok? ==>
              var one := StepOutcome(cfg, disk, svc, req, k + 1, steps[k], SourceOf(req, prev.result.value),
                                     workingFolder, subfolder, prev.log);
              RunSteps(cfg, disk, svc, req, steps[..k + 1], workingFolder, subfolder, log)
              == if one.result.Err? then Out(Err(one.result.error), one.log)
                 else Out(Ok(prev.result.value + [one.result.value]), one.log)
  {
    assert steps[..k + 1][..k] == steps[..k];
  }

  lemma {:induction false} RunStepsErrPersists(cfg: Config, disk: Disk, svc: Services, req: Request,
                                               steps: seq<StepDefinition>, k: nat, workingFolder: string,
                                               subfolder: string, log: seq<Call>)
    requires k <= |steps|
    requires RunSteps(cfg, disk, svc, req, steps[..k], workingFolder, subfolder, log).result.Err?
    ensures RunSteps(cfg, disk, svc, req, steps, workingFolder, subfolder, log)
            == RunSteps(cfg, disk, svc, req, steps[..k], workingFolder, subfolder, log)
    decreases |steps|
  {
    if k < |steps| {
      var init := steps[..|steps| - 1];
      assert init[..k] == steps[..k];
      RunStepsErrPersists(cfg, disk, svc, req, init, k, workingFolder, subfolder, log);
      FailedStaysFailed(cfg, disk, svc, req, steps, workingFolder, subfolder, log);
    } else {
      assert steps[..k] == steps;
    }
  }

  /** A failed run does not resume with the next step. */
  lemma FailedStaysFailed(cfg: Config, disk: Disk, svc: Services, req: Request, steps: seq<StepDefinition>,
                          workingFolder: string, subfolder: string, log: seq<Call>)
    requires steps != []
    requires RunSteps(cfg, disk, svc, req, steps[..|steps| - 1], workingFolder, subfolder, log).result.Err?
    ensures RunSteps(cfg, disk, svc, req, steps, workingFolder, subfolder, log)
            == RunSteps(cfg, disk, svc, req, steps[..|steps| - 1], workingFolder, subfolder, log)
  {
  }

  /** A completed step records the source it was given and its staging. */
  lemma StepOutcomeStaged(cfg: Config, disk: Disk, svc: Services, req: Request, n: nat, step: StepDefinition,
                          source: Source, workingFolder: string, subfolder: string, log: seq<Call>)
    requires StepOutcome(cfg, disk, svc, req, n, step, source, workingFolder, subfolder, log).result.Ok?
    ensures Prepare(cfg, disk, req, n, step, source, workingFolder, subfolder).Ok?
    ensures var t := StepOutcome(cfg, disk, svc, req, n, step, source, workingFolder, subfolder, log).result.value;
            && t.source == source
            && t.staged == Prepare(cfg, disk, req, n, step, source, workingFolder, subfolder).value
  {
  }

  /** Staging keeps the environment `create_env_json` derived, except for
      the experiment file name. */
  lemma PreparedEnv(cfg: Config, disk: Disk, req: Request, n: nat, step: StepDefinition, source: Source,
                    workingFolder: string, subfolder: string)
    requires Prepare(cfg, disk, req, n, step, source, workingFolder, subfolder).Ok?
    ensures EnvJson(workingFolder, subfolder, cfg.namedVolume, step, req.localPaths).Ok?
    ensures Prepare(cfg, disk, req, n, step, source, workingFolder, subfolder).value.env.(experimentFile :=
              EnvJson(workingFolder, subfolder, cfg.namedVolume, step, req.localPaths).value.experimentFile)
            == EnvJson(workingFolder, subfolder, cfg.namedVolume, step, req.localPaths).value
  {
    var env := EnvJson(workingFolder, subfolder, cfg.namedVolume, step, req.localPaths).value;
    StagedFrom(cfg, disk, n, env, SourceList(source, disk.listDir(n)).value);
  }

  /** A completed step records the source it was given and the folders
      `create_env_json` derived for it. */
  lemma StepOutcomeTrace(cfg: Config, disk: Disk, svc: Services, req: Request, n: nat, step: StepDefinition,
                         source: Source, workingFolder: string, subfolder: string, log: seq<Call>)
    requires StepOutcome(cfg, disk, svc, req, n, step, source, workingFolder, subfolder, log).result.Ok?
    ensures var t := StepOutcome(cfg, disk, svc, req, n, step, source, workingFolder, subfolder, log).result.value;
            && t.source == source
            && t.staged.env.relativeWorkingFolder == RelativeWorkingFolder(subfolder, step.makeflowFile)
            && t.staged.env.cacheDir == CacheDir(RelativeWorkingFolder(subfolder, step.makeflowFile))
            && t.staged.env.baseDir == BaseDir
  {
    StepOutcomeStaged(cfg, disk, svc, req, n, step, source, workingFolder, subfolder, log);
    PreparedEnv(cfg, disk, req, n, step, source, workingFolder, subfolder);
    EnvJsonFolders(workingFolder, subfolder, cfg.namedVolume, step, req.localPaths);
  }

  /** A completed run is the completed run of all but its last step,
      followed by that step's trace. */
  lemma RunStepsSnoc(cfg: Config, disk: Disk, svc: Services, req: Request, steps: seq<StepDefinition>,
                     workingFolder: string, subfolder: string, log: seq<Call>)
    requires steps != []
    requires RunSteps(cfg, disk, svc, req, steps, workingFolder, subfolder, log).result.Ok?
    ensures var prev := RunSteps(cfg, disk, svc, req, steps[..|steps| - 1], workingFolder, subfolder, log);
            && prev.result.Ok?
            && var one := StepOutcome(cfg, disk, svc, req, |steps|, steps[|steps| - 1], SourceOf(req, prev.result.value),
                                      workingFolder, subfolder, prev.log);
               && one.result.Ok?
               && RunSteps(cfg, disk, svc, req, steps, workingFolder, subfolder, log).result.value
                  == prev.result.value + [one.result.value]
  {
  }

  /** The cache hand-off over traces `ts` of `steps`: the first step staged
      the request's files, every later step the cache folder of the step
      before it, and each step's cache folder is the one derived from its
      own working folder. */
  predicate HandsOver(req: Request, subfolder: string, steps: seq<StepDefinition>, ts: seq<StepTrace>) {
    && |ts| == |steps|
    && (steps != [] ==> ts[0].source == Resources(req.localPaths))
    && (forall i :: 0 < i < |steps| ==>
          ts[i].source == Folder(CacheDir(RelativeWorkingFolder(subfolder, steps[i - 1].makeflowFile))))
    && (forall i :: 0 <= i < |steps| ==>
          ts[i].staged.env.cacheDir == CacheDir(RelativeWorkingFolder(subfolder, steps[i].makeflowFile)))
  }

  lemma HandsOverSnoc(req: Request, subfolder: string, steps: seq<StepDefinition>, ts: seq<StepTrace>, t: StepTrace)
    requires steps != [] && HandsOver(req, subfolder, steps[..|steps| - 1], ts)
    requires t.source == SourceOf(req, ts)
    requires t.staged.env.cacheDir == CacheDir(RelativeWorkingFolder(subfolder, steps[|steps| - 1].makeflowFile))
    ensures HandsOver(req, subfolder, steps, ts + [t])
  {
    var n := |steps|;
    var init := steps[..n - 1];
    var all := ts + [t];
    forall i | 0 <= i < n
      ensures all[i].staged.env.cacheDir == CacheDir(RelativeWorkingFolder(subfolder, steps[i].makeflowFile))
      ensures 0 < i ==> all[i].source == Folder(CacheDir(RelativeWorkingFolder(subfolder, steps[i - 1].makeflowFile)))
    {
      if i < n - 1 {
        assert all[i] == ts[i] && steps[i] == init[i];
        if 0 < i { assert steps[i - 1] == init[i - 1]; }
      } else if 0 < i {
        assert steps[i - 1] == init[i - 1];
      }
    }
  }

  /** The cache hand-off holds for every completed run. */
  lemma {:induction false} CacheHandOff(cfg: Config, disk: Disk, svc: Services, req: Request,
                                        steps: seq<StepDefinition>, workingFolder: string, subfolder: string,
                                        log: seq<Call>)
    requires RunSteps(cfg, disk, svc, req, steps, workingFolder, subfolder, log).result.Ok?
    ensures HandsOver(req, subfolder, steps, RunSteps(cfg, disk, svc, req, steps, workingFolder, subfolder, log).result.value)
    decreases |steps|
  {
    if steps != [] {
      var init := steps[..|steps| - 1];
      var prev := RunSteps(cfg, disk, svc, req, init, workingFolder, subfolder, log);
      RunStepsSnoc(cfg, disk, svc, req, steps, workingFolder, subfolder, log);
      CacheHandOff(cfg, disk, svc, req, init, workingFolder, subfolder, log);
      var source := SourceOf(req, prev.result.value);
      var n := |steps|;
      StepOutcomeTrace(cfg, disk, svc, req, n, steps[n - 1], source, workingFolder, subfolder, prev.log);
      var last := StepOutcome(cfg, disk, svc, req, n, steps[n - 1], source, workingFolder, subfolder, prev.log);
      HandsOverSnoc(req, subfolder, steps, prev.result.value, last.result.value);
    }
  }

  /** Step `k + 1` is the one that failed: the steps before it completed,
      and the run's outcome, log included, is the outcome up to it. */
  predicate FailsAt(cfg: Config, disk: Disk, svc: Services, req: Request, steps: seq<StepDefinition>,
                    workingFolder: string, subfolder: string, log: seq<Call>, k: nat)
    requires k < |steps|
  {
    && RunSteps(cfg, disk, svc, req, steps[..k], workingFolder, subfolder, log).result.Ok?
    && RunSteps(cfg, disk, svc, req, steps, workingFolder, subfolder, log)
       == RunSteps(cfg, disk, svc, req, steps[..k + 1], workingFolder, subfolder, log)
  }

  /** A prefix of all but the last element is a prefix of the whole. */
  lemma PrefixOfInit<T>(s: seq<T>, k: nat)
    requires k < |s|
    ensures s[..|s| - 1][..k] == s[..k]
  {
  }

  /** The first failure ends the run. */
  lemma {:induction false} StopsAtFirstFailure(cfg: Config, disk: Disk, svc: Services, req: Request,
                                               steps: seq<StepDefinition>, workingFolder: string, subfolder: string,
                                               log: seq<Call>)
    requires RunSteps(cfg, disk, svc, req, steps, workingFolder, subfolder, log).result.Err?
    ensures exists k :: 0 <= k < |steps| && FailsAt(cfg, disk, svc, req, steps, workingFolder, subfolder, log, k)
    decreases |steps|
  {
    var init := steps[..|steps| - 1];
    if RunSteps(cfg, disk, svc, req, init, workingFolder, subfolder, log).result.Err? {
      StopsAtFirstFailure(cfg, disk, svc, req, init, workingFolder, subfolder, log);
      var k :| 0 <= k < |init| && FailsAt(cfg, disk, svc, req, init, workingFolder, subfolder, log, k);
      PrefixOfInit(steps, k);
      PrefixOfInit(steps, k + 1);
      FailedStaysFailed(cfg, disk, svc, req, steps, workingFolder, subfolder, log);
      assert FailsAt(cfg, disk, svc, req, steps, workingFolder, subfolder, log, k);
    } else {
      assert steps[..|steps|] == steps;
      assert FailsAt(cfg, disk, svc, req, steps, workingFolder, subfolder, log, |steps| - 1);
    }
  }

  /** The descriptor's path made relative to `BASE_DIR` joins back onto it;
      a staged descriptor outside `BASE_DIR` is accepted only when it does
      not exist, and then the environment keeps the file name
      `create_env_json` chose. */
  lemma PreparedExperiment(cfg: Config, disk: Disk, req: Request, n: nat, step: StepDefinition, source: Source,
                           workingFolder: string, subfolder: string)
    requires Prepare(cfg, disk, req, n, step, source, workingFolder, subfolder).Ok?
    ensures var s := Prepare(cfg, disk, req, n, step, source, workingFolder, subfolder).value;
            var env := EnvJson(workingFolder, subfolder, cfg.namedVolume, step, req.localPaths).value;
            && s.env.baseDir == BaseDir
            && (StartsWith(s.experimentPath, BaseDir) ==> BaseDir + s.env.experimentFile == s.experimentPath)
            && (!StartsWith(s.experimentPath, BaseDir) ==> !disk.existsBefore(n)(s.experimentPath) && s.env == env)
            && s.env.(experimentFile := env.experimentFile) == env
            && SourceList(source, disk.listDir(n)).Ok?
            && LastExperiment(env, SourceList(source, disk.listDir(n)).value) == Some(s.experimentPath)
  {
    var env := EnvJson(workingFolder, subfolder, cfg.namedVolume, step, req.localPaths).value;
    EnvJsonFolders(workingFolder, subfolder, cfg.namedVolume, step, req.localPaths);
    StagedFrom(cfg, disk, n, env, SourceList(source, disk.listDir(n)).value);
  }

  /** Under a working folder of the usual shape, the staged descriptor lies
      below `BASE_DIR`, and its relative name is that folder followed by
      the descriptor's file name. */
  lemma StagedExperimentRelative(env: StepEnv, path: string)
    requires env.baseDir == BaseDir
    requires EndsWith(env.relativeWorkingFolder, "/") && env.relativeWorkingFolder[0] !in Seps
    ensures StartsWith(ExperimentDest(env, path), BaseDir)
    ensures ExperimentDest(env, path)[|BaseDir|..] == env.relativeWorkingFolder + Basename(path)
  {
    var rwf := env.relativeWorkingFolder;
    var name := Basename(path);
    JoinOntoFolder(BaseDir, rwf);
    var folder := BaseDir + rwf;
    assert folder[|folder| - 1] == '/' by { assert rwf[|rwf| - 1..] == "/"; }
    if name != "" { assert name[0] in name; }
    JoinOntoFolder(folder, name);
    assert ExperimentDest(env, path) == BaseDir + (rwf + name);
  }

  /** Requests made by earlier steps stay in the log, whatever happens
      later. */
  lemma {:induction false} RunStepsGrows(cfg: Config, disk: Disk, svc: Services, req: Request,
                                         steps: seq<StepDefinition>, workingFolder: string, subfolder: string,
                                         log: seq<Call>)
    ensures log <= RunSteps(cfg, disk, svc, req, steps, workingFolder, subfolder, log).log
    decreases |steps|
  {
    if steps != [] {
      var init := steps[..|steps| - 1];
      var prev := RunSteps(cfg, disk, svc, req, init, workingFolder, subfolder, log);
      RunStepsGrows(cfg, disk, svc, req, init, workingFolder, subfolder, log);
      if prev.result.Ok? {
        StepOutcomeGrows(cfg, disk, svc, req, |steps|, steps[|steps| - 1], SourceOf(req, prev.result.value),
                         workingFolder, subfolder, prev.log);
      }
    }
  }

  lemma StepOutcomeGrows(cfg: Config, disk: Disk, svc: Services, req: Request, n: nat, step: StepDefinition,
                         source: Source, workingFolder: string, subfolder: string, log: seq<Call>)
    ensures log <= StepOutcome(cfg, disk, svc, req, n, step, source, workingFolder, subfolder, log).log
  {
    var staged := Prepare(cfg, disk, req, n, step, source, workingFolder, subfolder);
    if staged.Ok? {
      ExecuteGrows(cfg, disk, svc, req, n, step, staged.value.env, log);
    }
  }

  lemma ExecuteGrows(cfg: Config, disk: Disk, svc: Services, req: Request, n: nat, step: StepDefinition,
                     env: StepEnv, log: seq<Call>)
    ensures log <= Execute(cfg, disk, svc, req, n, step, env, log).log
  {
    var experimentPath := Join(env.baseDir, env.experimentFile);
    var md := disk.experiment(n)(experimentPath, IsYamlPath(experimentPath));
    if md.Some? && ExperimentSettings(md.value, svc.render, svc.encrypt).Ok? {
      var settings := ExperimentSettings(md.value, svc.render, svc.encrypt).value;
      var proc := disk.results(n)(env.resultsPath);
      if disk.existsAfter(n)(env.resultsPath) && proc.Some? {
        ResultsJsonGrows(cfg.host, step, svc.replies, settings.info, proc.value, req.resource, log);
      }
    }
  }

  /** The configuration is checked before anything else happens. */
  lemma ConfigurationChecked(cfg: Config, disk: Disk, svc: Services, req: Request, log: seq<Call>)
    ensures cfg.namedVolume == "" ==> Message(cfg, disk, svc, req, log) == Out(Err(NoNamedVolume), log)
    ensures cfg.namedVolume != "" && cfg.workingSpace == "" ==>
              Message(cfg, disk, svc, req, log) == Out(Err(NoWorkingSpace), log)
  {
  }
}
