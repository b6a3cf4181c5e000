/** Staging a step's inputs into the layout the engine expects
    (`relocate_files`). Whether a path is a plain file or a directory, and
    what a folder lists, are questions to the filesystem, passed in as
    functions. */
module Staging {
  import opened Base
  import opened Paths
  import opened Environment

  /** The request's resources (the first step) or a folder on disk (the
      previous step's cache, for every later step). */
  datatype Source = Resources(localPaths: seq<string>) | Folder(path: string)

  datatype PathKind = PlainFile | Directory | Unknown

  datatype Copy = Copy(from: string, to: string)

  /** What `relocate_files` answers: the staging folder and the new
      experiment path, together with the copies it made. */
  datatype Relocation = Relocation(destDir: string, experiment: Option<string>, copies: seq<Copy>)

  const ScriptName := "cache_results.py"

  /** The paths to stage: the resource list as given, or every entry the
      folder lists, joined onto the folder. Listing a folder that is
      missing or is not a folder raises. */
  function SourceList(source: Source, listDir: string -> Option<seq<string>>): (ps: Result<seq<string>>)
    ensures source.Resources? ==> ps == Ok(source.localPaths)
    ensures source.Folder? ==> (ps.Err? <==> listDir(source.path).None?)
    ensures source.Folder? && ps.Err? ==> ps.error == FolderUnreadable(source.path)
    ensures source.Folder? && ps.Ok? ==>
              && |ps.value| == |listDir(source.path).value|
              && forall i :: 0 <= i < |ps.value| ==> ps.value[i] == Join(source.path, listDir(source.path).value[i])
  {
    match source
    case Resources(paths) => Ok(paths)
    case Folder(dir) =>
      match listDir(dir)
      case None => Err(FolderUnreadable(dir))
      case Some(names) => Ok(seq(|names|, i requires 0 <= i < |names| => Join(dir, names[i])))
  }

  /** Where ordinary data files go: `BASE_DIR` joined with the data folder. */
  function StagingDir(env: StepEnv): string {
    Join(env.baseDir, LStrip(env.dataFolderName, {'/'}))
  }

  /** The working folder's copy of the experiment descriptor. */
  function ExperimentDest(env: StepEnv, path: string): string {
    Join(Join(env.baseDir, env.relativeWorkingFolder), Basename(path))
  }

  /** The experiment descriptor is recognised by a case-sensitive suffix
      match against the file name `create_env_json` chose. */
  predicate IsExperimentSource(env: StepEnv, path: string) {
    EndsWith(path, env.experimentFile)
  }

  /** The copy a source path gives rise to: the experiment descriptor into
      the working folder, a plain file into the staging folder, nothing for
      a directory or a path of unknown kind. */
  function StagedCopy(env: StepEnv, destDir: string, path: string, kind: string -> PathKind): seq<Copy> {
    if IsExperimentSource(env, path) then [Copy(path, ExperimentDest(env, path))]
    else if kind(path) == PlainFile then [Copy(path, Join(destDir, Basename(path)))]
    else []
  }

  function StagedCopies(env: StepEnv, destDir: string, ps: seq<string>, kind: string -> PathKind): seq<Copy>
    decreases |ps|
  {
    if ps == [] then []
    else StagedCopies(env, destDir, ps[..|ps| - 1], kind) + StagedCopy(env, destDir, ps[|ps| - 1], kind)
  }

  /** The recorded experiment path: that of the last matching source. */
  function LastExperiment(env: StepEnv, ps: seq<string>): Option<string>
    decreases |ps|
  {
    if ps == [] then None
    else if IsExperimentSource(env, ps[|ps| - 1]) then Some(ExperimentDest(env, ps[|ps| - 1]))
    else LastExperiment(env, ps[..|ps| - 1])
  }

  function ScriptCopy(env: StepEnv, installDir: string): Copy {
    Copy(Join(installDir, ScriptName), Join(Join(env.baseDir, env.relativeWorkingFolder), ScriptName))
  }

  /** `relocate_files`: lists the sources, copies them one by one, then
      the helper script; returns the staging folder and the new experiment
      path. */
  method RelocateFiles(env: StepEnv, source: Source, kind: string -> PathKind,
                       listDir: string -> Option<seq<string>>, installDir: string)
    returns (r: Result<Relocation>)
    ensures SourceList(source, listDir).Err? ==> r == Err(SourceList(source, listDir).error)
    ensures SourceList(source, listDir).Ok? ==>
              var ps := SourceList(source, listDir).value;
              r == Ok(Relocation(StagingDir(env), LastExperiment(env, ps),
                                 StagedCopies(env, StagingDir(env), ps, kind) + [ScriptCopy(env, installDir)]))
  {
    var destDir := Join(env.baseDir, LStrip(env.dataFolderName, {'/'}));
    var experiment: Option<string> := None;
    var copies: seq<Copy> := [];
    var listed := SourceList(source, listDir);
    if listed.Err? {
      return Err(listed.error);
    }
    var sources := listed.value;
    var i := 0;
    while i < |sources|
      invariant 0 <= i <= |sources|
      invariant experiment == LastExperiment(env, sources[..i])
      invariant copies == StagedCopies(env, destDir, sources[..i], kind)
    {
      var one := sources[i];
      StagingNext(env, destDir, sources, i, kind);
      if EndsWith(one, env.experimentFile) {
        experiment := Some(Join(Join(env.baseDir, env.relativeWorkingFolder), Basename(one)));
        copies := copies + [Copy(one, experiment.value)];
      } else if kind(one) == PlainFile {
        copies := copies + [Copy(one, Join(destDir, Basename(one)))];
      }
      i := i + 1;
    }
    assert sources[..i] == sources;
    copies := copies + [ScriptCopy(env, installDir)];
    r := Ok(Relocation(destDir, experiment, copies));
  }

  /** One more source extends the copies by its own and replaces the
      recorded experiment path when it matches. */
  lemma StagingNext(env: StepEnv, destDir: string, ps: seq<string>, i: nat, kind: string -> PathKind)
    requires i < |ps|
    ensures StagedCopies(env, destDir, ps[..i + 1], kind)
            == StagedCopies(env, destDir, ps[..i], kind) + StagedCopy(env, destDir, ps[i], kind)
    ensures LastExperiment(env, ps[..i + 1])
            == if IsExperimentSource(env, ps[i]) then Some(ExperimentDest(env, ps[i])) else LastExperiment(env, ps[..i])
  {
    assert ps[..i + 1][..i] == ps[..i];
  }

  /** Every staged copy is an experiment descriptor going to the working
      folder or a plain file going to the staging folder; nothing else is
      copied. */
  lemma {:induction false} StagedCopiesSound(env: StepEnv, destDir: string, ps: seq<string>, kind: string -> PathKind)
    ensures forall c :: c in StagedCopies(env, destDir, ps, kind) ==>
      c.from in ps &&
      ((IsExperimentSource(env, c.from) && c.to == ExperimentDest(env, c.from)) ||
       (!IsExperimentSource(env, c.from) && kind(c.from) == PlainFile && c.to == Join(destDir, Basename(c.from))))
  {
    if ps != [] {
      StagedCopiesSound(env, destDir, ps[..|ps| - 1], kind);
      forall c | c in StagedCopies(env, destDir, ps[..|ps| - 1], kind) ensures c.from in ps {
        assert c.from in ps[..|ps| - 1];
      }
    }
  }

  /** Every experiment descriptor and every plain file among the sources is
      copied. */
  lemma {:induction false} StagedCopiesComplete(env: StepEnv, destDir: string, ps: seq<string>, kind: string -> PathKind)
    ensures forall i :: 0 <= i < |ps| && (IsExperimentSource(env, ps[i]) || kind(ps[i]) == PlainFile) ==>
      exists c :: c in StagedCopies(env, destDir, ps, kind) && c.from == ps[i]
  {
    if ps != [] {
      var init := ps[..|ps| - 1];
      StagedCopiesComplete(env, destDir, init, kind);
      var all := StagedCopies(env, destDir, ps, kind);
      forall i | 0 <= i < |ps| && (IsExperimentSource(env, ps[i]) || kind(ps[i]) == PlainFile)
        ensures exists c :: c in all && c.from == ps[i]
      {
        if i < |ps| - 1 {
          assert init[i] == ps[i];
          var c :| c in StagedCopies(env, destDir, init, kind) && c.from == init[i];
          assert c in all;
        } else {
          var last := StagedCopy(env, destDir, ps[i], kind);
          assert last[0] in all;
        }
      }
    }
  }

  /** An experiment path is recorded exactly when some source matches. */
  lemma {:induction false} LastExperimentFound(env: StepEnv, ps: seq<string>)
    ensures LastExperiment(env, ps).Some? <==> exists i :: 0 <= i < |ps| && IsExperimentSource(env, ps[i])
    decreases |ps|
  {
    if ps != [] {
      var init := ps[..|ps| - 1];
      LastExperimentFound(env, init);
      if !IsExperimentSource(env, ps[|ps| - 1]) {
        if exists i :: 0 <= i < |ps| && IsExperimentSource(env, ps[i]) {
          var i :| 0 <= i < |ps| && IsExperimentSource(env, ps[i]);
          assert init[i] == ps[i];
        }
        if LastExperiment(env, init).Some? {
          var i :| 0 <= i < |init| && IsExperimentSource(env, init[i]);
          assert ps[i] == init[i];
        }
      }
    }
  }

  /** Source `i` is the last one that matches. */
  predicate IsLastMatch(env: StepEnv, ps: seq<string>, i: int) {
    && 0 <= i < |ps| && IsExperimentSource(env, ps[i])
    && forall j :: i < j < |ps| ==> !IsExperimentSource(env, ps[j])
  }

  /** The recorded path is the working-folder copy of the last matching
      source. */
  lemma {:induction false} LastExperimentSpec(env: StepEnv, ps: seq<string>)
    requires LastExperiment(env, ps).Some?
    ensures exists i :: IsLastMatch(env, ps, i) && LastExperiment(env, ps).value == ExperimentDest(env, ps[i])
    decreases |ps|
  {
    var init := ps[..|ps| - 1];
    if IsExperimentSource(env, ps[|ps| - 1]) {
      assert IsLastMatch(env, ps, |ps| - 1);
    } else {
      LastExperimentSpec(env, init);
      var i :| IsLastMatch(env, init, i) && LastExperiment(env, init).value == ExperimentDest(env, init[i]);
      assert ps[i] == init[i];
      forall j | i < j < |ps| ensures !IsExperimentSource(env, ps[j]) {
        if j < |ps| - 1 { assert init[j] == ps[j]; }
      }
      assert IsLastMatch(env, ps, i);
    }
  }
}
