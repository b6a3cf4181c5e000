/** Step definitions and the per-step environment handed to the workflow
    engine as `env.json` (`create_env_json`). */
module Environment {
  import opened Base
  import opened Values
  import opened Paths

  /** One pipeline step. `success` is the step's return-code predicate; None
      stands for the predicate raising (the code is not a number). */
  datatype StepDefinition = StepDefinition(
    name: string,
    makeflowFile: string,
    dockerVersion: string,
    arguments: Option<string>,
    success: Value -> Option<bool>,
    forceDataset: bool,
    datasetNameTemplate: Option<string>)

  predicate IsDigit(c: char) {
    '0' <= c <= '9'
  }

  predicate Digits(s: string) {
    s != [] && forall i :: 0 <= i < |s| ==> IsDigit(s[i])
  }

  /** The literal without its optional leading sign. */
  function Unsigned(s: string): string {
    if s != [] && (s[0] == '+' || s[0] == '-') then s[1..] else s
  }

  /** A decimal literal `int()` accepts: an optional sign, then one or more
      digits. */
  predicate IsDecimal(s: string) {
    Digits(Unsigned(s))
  }

  /** `lambda code: int(code) == 0`. Integers and booleans convert, and so
      does a decimal string, which denotes zero exactly when every digit is
      `0`; anything else raises (None). */
  function CodeIsZero(code: Value): (r: Option<bool>)
    ensures r.Some? <==> code.Int? || code.Bool? || (code.Str? && IsDecimal(code.s))
    ensures code.Int? ==> r == Some(code.i == 0)
    ensures code.Bool? ==> r == Some(!code.b)
  {
    match code
    case Int(i) => Some(i == 0)
    case Bool(b) => Some(!b)
    case Str(s) =>
      if IsDecimal(s) then
        var digits := Unsigned(s);
        Some(forall i :: 0 <= i < |digits| ==> digits[i] == '0')
      else None
    case _ => None
  }

  /** Zero in any spelling is accepted, any other number is rejected, and a
      string that is not a number makes the predicate raise. */
  lemma CodeIsZeroStrings()
    ensures CodeIsZero(Str("0")) == Some(true)
    ensures CodeIsZero(Str("-00")) == Some(true)
    ensures CodeIsZero(Str("10")) == Some(false)
    ensures CodeIsZero(Str("")) == None
    ensures CodeIsZero(Str("zero")) == None
  {
    var zero, negZero, ten, word := "0", "-00", "10", "zero";
    assert Unsigned(zero) == zero && IsDigit(zero[0]);
    assert Unsigned(negZero) == "00";
    var oo := "00";
    assert IsDigit(oo[0]) && IsDigit(oo[1]);
    assert Unsigned(ten) == ten && IsDigit(ten[0]) && IsDigit(ten[1]) && ten[0] != '0';
    assert Unsigned(word) == word && !IsDigit(word[0]);
  }

  const NameTemplate := "{date}_{experiment}_{name}"

  /** The fixed two-step pipeline. */
  const Workflow: seq<StepDefinition> := [
    StepDefinition("OpenDroneMap workflow", "odm_workflow.jx", "2.0", None, CodeIsZero, true, Some(NameTemplate)),
    StepDefinition("Soil Mask workflow", "soil_mask_workflow.jx", "2.0", None, CodeIsZero, false, Some(NameTemplate))
  ]

  /** The contents of `env.json` for one step. */
  datatype StepEnv = StepEnv(
    mountSource: string,
    dockerVersion: string,
    baseDir: string,
    relativeWorkingFolder: string,
    cacheDir: string,
    dataFolderName: string,
    experimentFile: string,
    resultsPath: string)

  /** The mount point of the shared volume inside the engine's containers. */
  const BaseDir := "/mnt/"

  /** The makeflow file's base name without its extension. */
  function StepFolderName(makeflowFile: string): string {
    LStrip(SplitExt(Basename(makeflowFile)).0, Seps)
  }

  function RelativeWorkingFolder(subfolder: string, makeflowFile: string): string {
    RStrip(LStrip(Join(subfolder, StepFolderName(makeflowFile)), Seps), Seps) + "/"
  }

  function CacheDir(relativeFolder: string): string {
    Join(Join(BaseDir, relativeFolder), "cache") + "/"
  }

  function DataFolderName(relativeFolder: string): string {
    LStrip(Join(relativeFolder, "images"), Seps)
  }

  function ResultsPath(outFolder: string): string {
    Join(outFolder, "results.json")
  }

  /** The experiment descriptor is recognised by a case-insensitive `.yaml`
      suffix. */
  predicate IsExperimentFile(path: string) {
    EndsWith(Lower(path), ".yaml")
  }

  /** The environment of a step, given the experiment file found. */
  function EnvFor(outFolder: string, subfolder: string, volume: string, step: StepDefinition,
                  experiment: string): StepEnv
  {
    var rwf := RelativeWorkingFolder(subfolder, step.makeflowFile);
    StepEnv(volume, step.dockerVersion, BaseDir, rwf, CacheDir(rwf), DataFolderName(rwf),
            Basename(experiment), ResultsPath(outFolder))
  }

  /** The index of the first local path that names an experiment
      descriptor, if any. */
  function FirstExperiment(localPaths: seq<string>): (r: Option<nat>)
    ensures r.None? <==> forall i :: 0 <= i < |localPaths| ==> !IsExperimentFile(localPaths[i])
    ensures r.Some? ==> r.value < |localPaths| && IsExperimentFile(localPaths[r.value])
    ensures r.Some? ==> forall j :: 0 <= j < r.value ==> !IsExperimentFile(localPaths[j])
    decreases |localPaths|
  {
    if localPaths == [] then None
    else if IsExperimentFile(localPaths[0]) then Some(0)
    else match FirstExperiment(localPaths[1..])
      case None => None
      case Some(i) => Some(i + 1)
  }

  /** The environment `create_env_json` answers: built around the first
      experiment descriptor among the request's local paths, or an error
      when there is none. */
  function EnvJson(outFolder: string, subfolder: string, volume: string, step: StepDefinition,
                   localPaths: seq<string>): (r: Result<StepEnv>)
    ensures r.Err? <==> forall i :: 0 <= i < |localPaths| ==> !IsExperimentFile(localPaths[i])
    ensures r.Err? ==> r.error == NoExperimentFile
  {
    match FirstExperiment(localPaths)
    case None => Err(NoExperimentFile)
    case Some(i) => Ok(EnvFor(outFolder, subfolder, volume, step, localPaths[i]))
  }

  /** A successful environment is that of the first experiment descriptor. */
  lemma EnvJsonFirst(outFolder: string, subfolder: string, volume: string, step: StepDefinition,
                     localPaths: seq<string>)
    requires EnvJson(outFolder, subfolder, volume, step, localPaths).Ok?
    ensures exists i :: && 0 <= i < |localPaths| && IsExperimentFile(localPaths[i])
                        && (forall j :: 0 <= j < i ==> !IsExperimentFile(localPaths[j]))
                        && EnvJson(outFolder, subfolder, volume, step, localPaths).value
                           == EnvFor(outFolder, subfolder, volume, step, localPaths[i])
  {
    var i := FirstExperiment(localPaths).value;
    assert EnvJson(outFolder, subfolder, volume, step, localPaths).value
           == EnvFor(outFolder, subfolder, volume, step, localPaths[i]);
  }

  /** The folders of a derived environment depend only on the working
      folders and the step, not on which file is the experiment file. */
  lemma EnvJsonFolders(outFolder: string, subfolder: string, volume: string, step: StepDefinition,
                       localPaths: seq<string>)
    requires EnvJson(outFolder, subfolder, volume, step, localPaths).Ok?
    ensures var env := EnvJson(outFolder, subfolder, volume, step, localPaths).value;
            && env.baseDir == BaseDir
            && env.relativeWorkingFolder == RelativeWorkingFolder(subfolder, step.makeflowFile)
            && env.cacheDir == CacheDir(RelativeWorkingFolder(subfolder, step.makeflowFile))
            && env.resultsPath == ResultsPath(outFolder)
  {
    var i := FirstExperiment(localPaths).value;
    assert EnvJson(outFolder, subfolder, volume, step, localPaths)
           == Ok(EnvFor(outFolder, subfolder, volume, step, localPaths[i]));
  }

  /** The break-loop of `create_env_json`. */
  method FindExperimentFile(localPaths: seq<string>) returns (found: Option<nat>)
    ensures found == FirstExperiment(localPaths)
  {
    found := None;
    var i := 0;
    while i < |localPaths|
      invariant 0 <= i <= |localPaths|
      invariant forall j :: 0 <= j < i ==> !IsExperimentFile(localPaths[j])
    {
      if IsExperimentFile(localPaths[i]) {
        found := Some(i);
        break;
      }
      i := i + 1;
    }
  }

  /** `create_env_json`: builds the environment field by field and takes
      the first experiment descriptor among the request's local paths,
      raising when there is none. */
  method CreateEnvJson(outFolder: string, subfolder: string, volume: string, step: StepDefinition,
                       localPaths: seq<string>) returns (r: Result<StepEnv>)
    ensures r == EnvJson(outFolder, subfolder, volume, step, localPaths)
  {
    var rwf := RelativeWorkingFolder(subfolder, step.makeflowFile);
    var env := StepEnv(volume, step.dockerVersion, BaseDir, rwf, "", "", "", "");
    env := env.(cacheDir := CacheDir(env.relativeWorkingFolder));
    env := env.(dataFolderName := DataFolderName(env.relativeWorkingFolder));

    var found := FindExperimentFile(localPaths);
    if found.None? {
      return Err(NoExperimentFile);
    }
    env := env.(experimentFile := Basename(localPaths[found.value]));
    env := env.(resultsPath := ResultsPath(outFolder));
    r := Ok(env);
  }

  /** `RELATIVE_WORKING_FOLDER` ends in exactly one `/`, and unless it is the
      bare `/` it has no leading separator. */
  lemma RelativeFolderShape(subfolder: string, makeflowFile: string)
    ensures var rwf := RelativeWorkingFolder(subfolder, makeflowFile);
            && EndsWith(rwf, "/")
            && (rwf == "/" || (rwf[0] !in Seps && rwf[|rwf| - 2] !in Seps))
  {
    var rwf := RelativeWorkingFolder(subfolder, makeflowFile);
    var inner := RStrip(LStrip(Join(subfolder, StepFolderName(makeflowFile)), Seps), Seps);
    assert rwf == inner + "/";
    assert rwf[|rwf| - 1..] == "/";
    if inner != [] {
      var l := LStrip(Join(subfolder, StepFolderName(makeflowFile)), Seps);
      assert inner == l[..|inner|];
      assert inner[0] == l[0];
      assert rwf[0] == inner[0] && rwf[|rwf| - 2] == inner[|inner| - 1];
    }
  }

  /** For a real folder, the cache lives at `/mnt/` + folder + `cache/` and
      the data folder is folder + `images`; the degenerate folder `/` puts
      the cache at `/cache/` and the data folder at `images`. */
  lemma CacheAndDataFolders(subfolder: string, makeflowFile: string)
    ensures var rwf := RelativeWorkingFolder(subfolder, makeflowFile);
            && (rwf != "/" ==> CacheDir(rwf) == BaseDir + rwf + "cache/"
                                && DataFolderName(rwf) == rwf + "images")
            && (rwf == "/" ==> CacheDir(rwf) == "/cache/" && DataFolderName(rwf) == "images")
  {
    RelativeFolderShape(subfolder, makeflowFile);
    FoldersOfShape(RelativeWorkingFolder(subfolder, makeflowFile));
  }

  lemma FoldersOfShape(rwf: string)
    requires EndsWith(rwf, "/")
    requires rwf == "/" || rwf[0] !in Seps
    ensures rwf != "/" ==> CacheDir(rwf) == BaseDir + rwf + "cache/" && DataFolderName(rwf) == rwf + "images"
    ensures rwf == "/" ==> CacheDir(rwf) == "/cache/" && DataFolderName(rwf) == "images"
  {
    assert rwf[|rwf| - 1] == '/' by { assert rwf[|rwf| - 1..] == "/"; }
    assert "cache"[0] == 'c' && "images"[0] == 'i';
    if rwf != "/" {
      var m := BaseDir + rwf;
      JoinOntoFolder(BaseDir, rwf);
      assert m[|m| - 1] == '/';
      JoinOntoFolder(m, "cache");
      JoinOntoFolder(rwf, "images");
      assert (rwf + "images")[0] == rwf[0];
    } else {
      RootFolders();
    }
  }

  lemma RootFolders()
    ensures CacheDir("/") == "/cache/" && DataFolderName("/") == "images"
  {
    assert Join(BaseDir, "/") == "/";
    JoinOntoFolder("/", "cache");
    assert "/" + "cache" + "/" == "/cache/";
    JoinOntoFolder("/", "images");
    var l := "/images";
    assert l[0] in Seps && l[1..] == "images";
    assert "images"[0] !in Seps;
  }

  /** The folder's last segment is the step's folder name (the makeflow
      file's base name without its extension): the folder is that name
      followed by `/`, or ends with `/`, the name and `/`. */
  lemma RelativeFolderEndsWithStep(subfolder: string, makeflowFile: string)
    requires StepFolderName(makeflowFile) != ""
    requires StepFolderName(makeflowFile)[|StepFolderName(makeflowFile)| - 1] !in Seps
    ensures var rwf := RelativeWorkingFolder(subfolder, makeflowFile);
            var name := StepFolderName(makeflowFile);
            rwf == name + "/" || EndsWith(rwf, "/" + name + "/")
  {
    var name := StepFolderName(makeflowFile);
    StartsWithSlash(name);
    JoinRelative(subfolder, name);
    var a := if subfolder == "" || EndsWith(subfolder, "/") then subfolder else subfolder + "/";
    assert Join(subfolder, name) == a + name;
    assert a == "" || a[|a| - 1] == '/' by {
      if subfolder != "" && EndsWith(subfolder, "/") {
        assert subfolder[|subfolder| - 1..] == "/";
      }
    }
    StrippedSegment(a, name);
  }

  /** Stripping separators around `a + name`, where `a` is empty or ends in
      `/` and `name` neither starts nor ends with a separator, leaves `name`
      as the last segment. */
  lemma StrippedSegment(a: string, name: string)
    requires a == "" || a[|a| - 1] == '/'
    requires name != "" && name[0] !in Seps && name[|name| - 1] !in Seps
    ensures var rwf := RStrip(LStrip(a + name, Seps), Seps) + "/";
            rwf == name + "/" || EndsWith(rwf, "/" + name + "/")
  {
    var j := a + name;
    assert EndsWith(j, name) by { assert j[|j| - |name|..] == name; }
    LStripKeepsSuffix(j, name, Seps);
    var l := LStrip(j, Seps);
    assert l[|l| - 1] == name[|name| - 1] by { assert l[|l| - |name|..] == name; }
    RStripNothing(l, Seps);
    if |l| == |name| {
      assert l == name by { assert l[|l| - |name|..] == l; }
    } else {
      SeparatorBeforeSuffix(a, name, l);
      EndsWithAppend(l, "/" + name, "/");
    }
  }

  /** A proper suffix of `a + name`, longer than `name`, where `a` is empty
      or ends in `/`, has `/` just before `name`. */
  lemma SeparatorBeforeSuffix(a: string, name: string, l: string)
    requires a == "" || a[|a| - 1] == '/'
    requires |name| < |l| <= |a| + |name|
    requires l == (a + name)[|a| + |name| - |l|..]
    ensures EndsWith(l, "/" + name)
  {
    var j := a + name;
    var k := |l| - |name| - 1;
    assert l[k] == j[|a| - 1] == a[|a| - 1];
    assert l[k + 1..] == j[|a|..] == name;
    assert l[k..] == [l[k]] + l[k + 1..];
  }

  /** The results file is inside the host-side output folder. */
  lemma ResultsInsideOutFolder(outFolder: string)
    ensures StartsWith(ResultsPath(outFolder), outFolder)
    ensures EndsWith(ResultsPath(outFolder), "results.json")
  {
    StartsWithSlash("results.json");
    JoinRelative(outFolder, "results.json");
  }

  /** The step folder of a plain makeflow file `root.ext` is `root`. */
  lemma StepFolderOfPlainFile(root: string, ext: string)
    requires root != "" && root[0] !in Seps && root[0] != '.' && '/' !in root
    requires '.' !in ext && '/' !in ext
    ensures StepFolderName(root + "." + ext) == root
  {
    SplitPlainFileName(root, ext);
  }

  /** The pipeline's first step works under `odm_workflow/`. */
  lemma FirstStepFolderName()
    ensures StepFolderName(Workflow[0].makeflowFile) == "odm_workflow"
  {
    assert Workflow[0].makeflowFile == "odm_workflow" + "." + "jx";
    StepFolderOfPlainFile("odm_workflow", "jx");
  }

  /** The pipeline's second step works under `soil_mask_workflow/`. */
  lemma SecondStepFolderName()
    ensures StepFolderName(Workflow[1].makeflowFile) == "soil_mask_workflow"
  {
    assert Workflow[1].makeflowFile == "soil_mask_workflow" + "." + "jx";
    StepFolderOfPlainFile("soil_mask_workflow", "jx");
  }
}
