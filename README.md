# Drone makeflow step orchestrator, modelled in Dafny

The drone makeflow extractor receives a request from a Clowder server.
It runs a fixed two-step pipeline (OpenDroneMap, then a soil mask) through
the makeflow workflow engine, and publishes each step's results back to
Clowder. This project models the extractor's decision and data-shaping
logic and proves properties of that model. Each step:

- derives its environment (`env.json`);
- stages its inputs: the request's files for the first step, the previous
  step's cache folder for every later step;
- makes the staged experiment descriptor's path relative to `BASE_DIR`;
- waits for the engine;
- reads the experiment descriptor and reconciles the Clowder credentials
  in it, so that only a secured password reaches the step's metadata;
- reads the results descriptor and publishes it: a container becomes a
  dataset found or created by name, and file results are uploaded into
  the request's dataset, each with its JSON-LD metadata envelope.

The first failure ends the request.

Three kinds of things are not computed in the model; each is passed in:

- **Remote repository.** Every request to Clowder is an entry of a call
  log (`Publish.Call`). Its answers (`Publish.Replies`) are functions of
  the log of the calls made before the request, so an answer may depend on
  earlier requests. Every publishing function returns `Out(result, log)`:
  requests made before an exception stay in the log.
- **Filesystem and engine.** `Orchestrator.Disk` answers, per step
  number:
  - whether a path is a plain file or a directory, and what a folder
    lists, or that it cannot be listed;
  - whether a path exists before and after the engine runs;
  - whether the engine finished within the wait limit;
  - the parsed experiment and results descriptors;
  - the name `mkdtemp` picks.
- **Foreign functions.** `encrypt_pipeline_string` and Python's `repr` of
  lists and mappings are uninterpreted functions (`Orchestrator.Services`).

Parsed JSON and YAML are `Values.Value` trees. A mapping is a sequence of
(key, value) pairs, which keeps Python's iteration order. `Contains`,
`Index`, `Truthy`, `Put` and `Iterate` model the Python operators the
source applies to them, TypeError and KeyError included. Each module
follows one concern of `drone_makeflow.py`:

- `Metadata`: `prepare_metadata`.
- `Environment`: the pipeline definition and `create_env_json`.
- `Staging`: `relocate_files`.
- `Search`: `find_dict_key`.
- `Experiment`: `secure_string`, the experiment information and the
  credentials.
- `Format`: `str.format` on dataset-name templates.
- `Publish`: `upload_files`, `update_file_metadata`, `process_result_file`,
  `process_result_dataset` and `update_dataset_metadata`.
- `Results`: `process_results_json`.
- `Orchestrator`: `process_message`.

Where the source loops, a `method` with a `while` loop is proved equal to
a specification function. The properties are proved as `ensures` clauses
and lemmas about those functions.

## Model

| member | source | states |
|---|---|---|
| Metadata.PrepareMetadata | drone_makeflow.py:69-103 | A block with `@context` comes back unchanged. Any other mapping becomes an envelope whose `@context` is the Clowder context list, whose `content` is the block and whose `agent` names the extractor. The envelope has `dataset_id` when the flag says dataset and `file_id` otherwise, never both, holding the target id. A block that is not a container raises. |
| Metadata.PrepareIdempotent | drone_makeflow.py:81-82 | Preparing an envelope a second time returns it unchanged. |
| Metadata.ExtractorIdTrailingSlash | drone_makeflow.py:92 | A host with or without its trailing `/` gives the same extractor id. The id starts with host + `/` and ends with `/api/extractors/` + creator. |
| Environment.CodeIsZero | drone_makeflow.py:47 | `int(code) == 0`. An integer is accepted iff it is zero, a boolean iff it is false. A decimal string is accepted iff all its digits are `0`. Any other value makes the predicate raise (None). |
| Environment.CodeIsZeroStrings | drone_makeflow.py:47 | `"0"` and `"-00"` are accepted, `"10"` is rejected, and `""` and `"zero"` raise. |
| Environment.FirstExperiment | drone_makeflow.py:148-152 | The index of the first local path whose lower-cased form ends in `.yaml`. None iff no path does. |
| Environment.EnvJson | drone_makeflow.py:147-157 | Fails with NoExperimentFile iff no local path ends in `.yaml` (case-insensitive). |
| Environment.EnvJsonFirst | drone_makeflow.py:148-154 | A successful environment is the one built around the first `.yaml` path, and no earlier path qualifies. |
| Environment.EnvJsonFolders | drone_makeflow.py:139-145 | A successful environment has `BASE_DIR` `/mnt/`, the relative working folder of the subfolder and the makeflow file, the cache folder of that folder, and the results path of the output folder. |
| Environment.FindExperimentFile | drone_makeflow.py:148-152 | The break-loop returns the index `FirstExperiment` specifies. |
| Environment.CreateEnvJson | drone_makeflow.py:117-162 | Building the environment field by field gives exactly `EnvJson`, including the error when there is no experiment file. |
| Environment.RelativeFolderShape | drone_makeflow.py:141 | `RELATIVE_WORKING_FOLDER` ends in `/`, and unless it is the bare `/` it neither starts with a separator nor has one before its final `/`: it ends in exactly one `/`. |
| Environment.CacheAndDataFolders | drone_makeflow.py:143-145 | For a real folder, `CACHE_DIR` is `/mnt/` + folder + `cache/` and `DATA_FOLDER_NAME` is folder + `images`. The degenerate folder `/` gives `/cache/` and `images`. |
| Environment.RelativeFolderEndsWithStep | drone_makeflow.py:133-141 | The relative working folder is the step name (the makeflow file's base name without its extension) followed by `/`, or it ends with `/`, that name and `/`. So its last segment is exactly the step name. |
| Environment.StepFolderOfPlainFile | drone_makeflow.py:133 | The step folder of a file `root.ext` is `root`. |
| Environment.FirstStepFolderName | drone_makeflow.py:44 | The first step works under `odm_workflow`. |
| Environment.SecondStepFolderName | drone_makeflow.py:53 | The second step works under `soil_mask_workflow`. |
| Environment.ResultsInsideOutFolder | drone_makeflow.py:160 | `RESULTS_FILE_PATH` starts with the output folder and ends with `results.json`. |
| Staging.SourceList | drone_makeflow.py:177-180 | The sources are the request's local paths as given, or, for a folder, every listed name joined onto the folder, in listing order. A folder that cannot be listed (`os.listdir` raising) fails with `FolderUnreadable` for that folder, and only then. |
| Staging.RelocateFiles | drone_makeflow.py:165-203 | A listing failure is passed on unchanged. Otherwise it returns the staging folder `BASE_DIR` + data folder. The experiment path is that of the last matching source. The copies are the staged copies of all sources in order, followed by the helper script's copy into the working folder. |
| Staging.StagedCopiesSound | drone_makeflow.py:183-195 | Every copy comes from a source and is one of two kinds. An experiment descriptor goes into the working folder. A plain file that is not a descriptor goes into the staging folder under its base name. |
| Staging.StagedCopiesComplete | drone_makeflow.py:183-191 | Every source that is an experiment descriptor or a plain file is copied. |
| Staging.LastExperimentFound | drone_makeflow.py:183-185 | An experiment path is recorded iff some source ends with the experiment file name. |
| Staging.LastExperimentSpec | drone_makeflow.py:184-185 | The recorded path is the working-folder copy of the last matching source: later assignments overwrite earlier ones. |
| Search.FirstMatch | drone_makeflow.py:533-535 | The first top-level entry whose key matches. None iff none does. |
| Search.NestedDicts | drone_makeflow.py:536-537 | The collected list holds exactly the mapping values of the top level. |
| Search.FindDictKey | drone_makeflow.py:518-546 | The two-pass search returns exactly what the reference breadth-first search `Find` returns. |
| Search.ScanTopLevel | drone_makeflow.py:533-538 | The first pass stops at the first matching key. When nothing matches, it has collected the nested mappings in order. |
| Search.SearchCollected | drone_makeflow.py:541-546 | The second pass returns the first hit among the collected mappings in order, each searched case-sensitively with the lowered key. |
| Search.TopLevelFirst | drone_makeflow.py:533-535 | When a top-level key matches, the first such entry is returned before any nested mapping is looked at. |
| Search.FindNoneIff | drone_makeflow.py:527-546 | None is returned iff no key matches. A top-level key matches case-insensitively when asked; a key at any deeper level must equal the lowered search key exactly. |
| Search.FindSound | drone_makeflow.py:527-546 | A returned pair is stored in the tree. Its key is a matching top-level key or is exactly the lowered search key: the value returned is the one stored under the returned key. |
| Search.DeeperLevelsAreCaseSensitive | drone_makeflow.py:542 | `Password` is found at the top level when searching for `password`, but not one level down. |
| Experiment.SecureString | drone_makeflow.py:549-559 | The result starts with `secured:` iff encryption gives a result, and what follows the marker is that result. Otherwise the result is `<removed>`. |
| Experiment.Natural | drone_makeflow.py:706 | `str(n)` is decimal digits without a leading zero (except for 0). |
| Experiment.Text | drone_makeflow.py:706 | `str(v)` is the string itself, the digits of a non-negative integer, or `-` followed by digits. |
| Experiment.InfoOfSpec | drone_makeflow.py:703-706 | The experiment information has exactly the descriptor's keys, each mapped to `str` of the value stored under it. |
| Experiment.BuildInfo | drone_makeflow.py:705-706 | The loop builds exactly `InfoOf`. |
| Experiment.ReconcileCredentials | drone_makeflow.py:707-721 | Finding the `clowder` block, looking up the three keys and assigning them one after another gives exactly `Reconcile`. |
| Experiment.AssignCredentials | drone_makeflow.py:713-721 | The three conditional assignments, last write wins, give exactly `CredentialsFrom`. |
| Experiment.PasswordOnlySecured | drone_makeflow.py:719-721 | Whenever a password is found, `workstep_metadata['password']` holds `secured:` + its encryption or `<removed>`, never the plain text. |
| Experiment.FieldFallback | drone_makeflow.py:713-721 | The credentials hold only `space`, `username` and `password`. Without a password the field holds the username if there is one, else the space. The field is written iff some credential is found. |
| Experiment.NoClowderNoCredentials | drone_makeflow.py:708-709 | A descriptor with no `clowder` key at any depth gives no credentials and leaves the field untouched. |
| Experiment.ReadExperiment | drone_makeflow.py:701-721 | Reading the descriptor gives exactly `ExperimentSettings`. An empty or false descriptor contributes nothing; any other non-mapping raises. |
| Format.NoFieldsIdentity | drone_makeflow.py:431 | A template without braces formats to itself. |
| Format.EscapeRoundTrip | drone_makeflow.py:431 | Formatting the brace-doubled form of any text gives back that text. |
| Format.FormatMonotone | drone_makeflow.py:431 | Extra keyword arguments never change a successful formatting. |
| Format.MissingKeyIsAbsent | drone_makeflow.py:431 | A KeyError names a field that is really absent from the arguments. |
| Publish.Iterate | drone_makeflow.py:332 | `for x in v` yields a list's items or a mapping's keys. Null, booleans and integers raise. |
| Publish.ReplaceFlag | drone_makeflow.py:345-347 | `replace` defaults to true. When the block has the key, the flag is that value's truthiness. |
| Publish.WorkingMetadata | drone_makeflow.py:348-351 | A block's `data` entry when it has one, otherwise the whole block. |
| Publish.UpdateFileMetadata | drone_makeflow.py:256-275 | When replacing, a delete request comes first, and the upload follows only if the delete succeeded. Otherwise only the upload is made. No failure escapes. |
| Publish.UploadFiles | drone_makeflow.py:313-363 | Iterating the file results and uploading them gives exactly `UploadFilesOut`. |
| Publish.UploadItems | drone_makeflow.py:332-363 | The upload loop gives exactly `UploadAll`, stopping at the first failure. |
| Publish.UploadOneLog | drone_makeflow.py:332-357 | One entry adds exactly one upload request, for its `path`, and only file-metadata requests besides; nothing is removed from the log. An entry without `path` raises before any request. |
| Publish.UploadOneRecord | drone_makeflow.py:335-360 | A successful entry had a `path`, the upload of that path to the dataset answered an id, and the entry's record is the entry with `id` set to exactly that answer. |
| Publish.FileMetadataLog | drone_makeflow.py:343-357 | Attaching file metadata only appends, and it makes no upload request. |
| Publish.UpdateFileMetadataLog | drone_makeflow.py:256-275 | Updating file metadata only appends, and it makes no upload request. |
| Publish.UploadAllErrPersists | drone_makeflow.py:337-339 | Once a prefix of the entries fails, the whole run ends with that outcome and that log. |
| Publish.UploadAllRecords | drone_makeflow.py:332-363 | A successful run answers one record per entry, in input order, each the entry plus its `id`. |
| Publish.UploadAllHavePaths | drone_makeflow.py:335 | Every entry of a successful run has a `path`. |
| Publish.UploadAllPaths | drone_makeflow.py:335-363 | A successful run uploads every entry's path, in order, after what the log already held. |
| Publish.UploadAllStops | drone_makeflow.py:337-339 | A failed run failed at one entry `k`: the entries before it succeeded. Its outcome and log are those of the first `k + 1` entries, so earlier uploads are not undone. |
| Publish.UploadAllGrows | drone_makeflow.py:332-363 | Uploading only appends to the log. |
| Publish.UploadFilesGrows | drone_makeflow.py:313-363 | `upload_files` only appends to the log. |
| Publish.ResolveDatasetId | drone_makeflow.py:388-397 | A resolved dataset id is never None. |
| Publish.ResolveSpec | drone_makeflow.py:388-397 | A `dataset`-typed request with a non-null `id` resolves to that id. A `file`-typed request whose `parent` mapping is `dataset`-typed with a non-null `id` resolves to the parent's id. Any resolved id is one of these two. A request without `type` does not resolve. |
| Publish.ProcessResultFile | drone_makeflow.py:366-401 | Resolving the dataset and then uploading gives exactly `ResultFile`. |
| Publish.ResultFileUnresolved | drone_makeflow.py:395-397 | Without a target dataset the error is raised and no request is made. |
| Publish.ResultFileGrows | drone_makeflow.py:401 | `process_result_file` only appends to the log. |
| Publish.TargetDatasetSpec | drone_makeflow.py:436-442 | A found dataset is used with `created` false. Otherwise a create request follows the lookup; it succeeds iff the repository answers an id, and then `created` is true. |
| Publish.ContainerFilesKeepsLast | drone_makeflow.py:445-448 | With both `file` and `files` present, both lists are uploaded in that order, and only the `files` records are kept. |
| Publish.UploadContainerFiles | drone_makeflow.py:445-448 | The loop over `file` and `files` gives exactly `ContainerFiles`. |
| Publish.ProcessResultDataset | drone_makeflow.py:404-474 | Naming, finding or creating, uploading and the metadata phase give exactly `ResultDataset`, with its id, created flag and file records. |
| Publish.UpdateDatasetMetadata | drone_makeflow.py:292-310 | The metadata update only appends to the log. |
| Publish.UpdateDatasetMetadataLog | drone_makeflow.py:292-310 | Every appended request goes to the dataset id. A removal of the old metadata is sent iff a truthy container block is present and `replace` is true, and it comes first. The container block's upload follows it. A truthy process block's upload is last. Nothing else is appended, so the count is fixed by the cases. |
| Publish.DatasetRecordOutUpdate | drone_makeflow.py:451-474 | A successful metadata phase answers the dataset's record, and its requests are those of `update_dataset_metadata` for the container envelope and the prepared process metadata. |
| Publish.DatasetRecordOutRemoval | drone_makeflow.py:451-474 | Every request goes to the dataset id. The old metadata is removed iff the container has `metadata` and its replace flag holds. With neither container metadata nor process metadata, nothing is sent. |
| Publish.DatasetRecordOutProcessLast | drone_makeflow.py:464-474 | With process metadata, the last request uploads it to the dataset: the metadata itself when it has `@context`, otherwise an envelope whose `content` is that metadata and whose `dataset_id` is the dataset's id. |
| Publish.ContainerFilesGrows | drone_makeflow.py:445-448 | The container's file uploads only append to the log. |
| Publish.ResultDatasetGrows | drone_makeflow.py:404-474 | `process_result_dataset` only appends to the log. |
| Publish.DatasetRecordOutGrows | drone_makeflow.py:451-474 | The metadata phase only appends to the log. |
| Publish.PreparedIsTruthy | drone_makeflow.py:293-310 | A prepared envelope is truthy, so `update_dataset_metadata` never skips a prepared block. |
| Results.ProcessMetadataSpec | drone_makeflow.py:498-502 | The process metadata holds exactly the keys other than container, file, files, code, error and message, each once, with the values copied unchanged. |
| Results.SplitProcessMetadata | drone_makeflow.py:498-502 | The loop gives exactly `ProcessMetadata`. |
| Results.ProcessResultsJson | drone_makeflow.py:477-515 | The code check, the container publisher and the file publishers in order give exactly `ResultsJson`. |
| Results.PublishContainerResult | drone_makeflow.py:505-508 | Gives exactly `PublishContainer`. |
| Results.PublishFileResults | drone_makeflow.py:509-513 | The loop over `file` and `files` gives exactly `PublishFiles`. |
| Results.ReturnsFalseIffRejected | drone_makeflow.py:492-495 | The answer is false iff the code is present and the step's predicate rejects it, and then nothing has been requested. |
| Results.PublishFilesNeverFalse | drone_makeflow.py:509-515 | Once the code is accepted, the answer is never false: it is true or an exception. |
| Results.PublishFilesErrPersists | drone_makeflow.py:509-513 | A failure while publishing one file key ends the publication. |
| Results.NothingToPublish | drone_makeflow.py:504-515 | An accepted descriptor without container, file or files answers true and makes no request. |
| Results.ResultsJsonGrows | drone_makeflow.py:477-515 | `process_results_json` only appends to the log. |
| Results.PublishFilesGrows | drone_makeflow.py:509-513 | Publishing file results only appends to the log. |
| Results.StepDatasetName | drone_makeflow.py:49 | The steps' template gives date, experiment and name joined by `_`. When one is missing, the first missing one in template order is the KeyError. |
| Results.DefaultDatasetName | drone_makeflow.py:433 | The default template gives name, date and experiment joined by `_`, with the same KeyError rule. |
| Orchestrator.SliceFrom | drone_makeflow.py:608 | `s[n:]`: the rest of `s` after its first `n` characters, or empty past the end. |
| Orchestrator.Relativize | drone_makeflow.py:645-648 | A path under `BASE_DIR` has its remainder recorded as the experiment file, so `BASE_DIR` + file is the path. Any other path leaves the environment unchanged. Nothing but the experiment file changes. |
| Orchestrator.RunSteps | drone_makeflow.py:619-733 | A completed run has one trace per step. |
| Orchestrator.PrepareStep | drone_makeflow.py:623-648 | Environment, staging, the two experiment-path checks and the relativization give exactly `Prepare`. |
| Orchestrator.ExecuteStep | drone_makeflow.py:655-733 | The wait, the descriptor load, the credentials, the results check and `process_results_json` give exactly `Execute`. |
| Orchestrator.RunStep | drone_makeflow.py:619-733 | One iteration gives exactly `StepOutcome`. |
| Orchestrator.HandOff | drone_makeflow.py:625-637 | After the first step, the previous environment's `CACHE_DIR` is the source; the first step stages the request's files. |
| Orchestrator.RunWorkflow | drone_makeflow.py:615-733 | The step loop, carrying the previous environment and cache folder, gives exactly `RunSteps`. |
| Orchestrator.ProcessMessage | drone_makeflow.py:580-736 | The configuration checks and the temporary working folder, then the pipeline, give exactly `Message`. |
| Orchestrator.FailedStaysFailed | drone_makeflow.py:619-733 | After a failed step no later step runs. |
| Orchestrator.RunStepsErrPersists | drone_makeflow.py:619-733 | Once a prefix of the steps fails, the whole run ends with that outcome and that log. |
| Orchestrator.StopsAtFirstFailure | drone_makeflow.py:619-733 | A failed run failed at one step `k`: the steps before it completed. Its outcome and log are those of the first `k + 1` steps. |
| Orchestrator.StepOutcomeStaged | drone_makeflow.py:623-648 | A completed step records the source it was given and its staging. |
| Orchestrator.PreparedEnv | drone_makeflow.py:624-648 | Staging keeps the environment `create_env_json` derived, except for the experiment file name. |
| Orchestrator.StepOutcomeTrace | drone_makeflow.py:624-637 | A completed step records its source, its relative working folder, its `CACHE_DIR` and `BASE_DIR` `/mnt/`. |
| Orchestrator.RunStepsSnoc | drone_makeflow.py:619-733 | A completed run is the completed run of all but its last step, followed by that step's trace. |
| Orchestrator.HandsOverSnoc | drone_makeflow.py:625-637 | The hand-off property extends by one step whose source and cache folder are right. |
| Orchestrator.CacheHandOff | drone_makeflow.py:619-637 | In every completed run, the first step staged the request's files. Every later step staged exactly the `CACHE_DIR` of the step before it, and each step's cache lies in its own working folder. |
| Orchestrator.PreparedExperiment | drone_makeflow.py:634-648 | For a staged step, `BASE_DIR` is `/mnt/` and the staged path is the last matching source's copy. The path under `BASE_DIR` joins back from the recorded file name. A path outside `BASE_DIR` that went through did not exist, and left the environment unchanged. |
| Orchestrator.StagedExperimentRelative | drone_makeflow.py:645-648 | With a working folder of the shape `create_env_json` derives, the staged descriptor lies under `BASE_DIR`. The recorded name is the working folder + the descriptor's base name. |
| Orchestrator.RunStepsGrows | drone_makeflow.py:619-733 | Requests made by earlier steps stay in the log, whatever happens later. |
| Orchestrator.StepOutcomeGrows | drone_makeflow.py:619-733 | One step only appends to the log. |
| Orchestrator.ExecuteGrows | drone_makeflow.py:655-733 | Running and publishing a step only appends to the log. |
| Orchestrator.ConfigurationChecked | drone_makeflow.py:598-613 | A missing named volume, then a missing working space, is reported before anything else happens and with no request made. |
| Values.PutLookup | drone_makeflow.py:360 | After `{**d, k: v}` the key holds `v`, every other key keeps its value, the key set grows by `k` only, and distinct keys stay distinct. |

## Left out

- The engine's launch and its wait loop (lines 652-690) are not modelled: the wall clock, `time.sleep`, pipe reads and the process itself. `Disk.finished` says whether a step finished within the limit, and a step that did not ends in `ProcessTimedOut`.
- The engine's return code is not consulted; only the results descriptor's `code` is, as in the source.
- Filesystem effects are not modelled. `os.makedirs`, `os.chmod` (`create_folder_default_perms`) and `shutil.copyfile` are represented by the list of copies staging returns; that a copy can fail is not modelled.
- Writing `env.json` (`setup_processing_step`, lines 206-219) is left out; the model keeps the environment as a value.
- `tempfile.mkdtemp` is an oracle (`Disk.tempName`). The working folder is the working space joined with that name.
- The JSON and YAML parsers are oracles. `Disk.experiment` and `Disk.results` give the parsed tree, or None when a file cannot be read or parsed.
- HTTP and the pyclowder calls are left out: URLs, the request key, status codes, `raise_for_status`. Each remote operation is one log entry whose answer comes from `Replies`. A create whose answer has no `id` is a None answer; see the `Publish.TargetDataset` line for an `id` that is null or not a string.
- The internals of `create_dataset` and of `extractors.get_datasetid_by_name` are left out; they are the `create` and `lookup` oracles.
- The metadata uploads of `update_dataset_metadata` and `files.upload_metadata` always succeed in the model. `update_file_metadata` swallows any failure of its own upload, so the file case loses nothing. A failing dataset metadata call would raise in the source, and the model does not capture that.
- The internals of `encrypt_pipeline_string` are left out; it is an uninterpreted function.
- Python's `repr` of lists and mappings inside `str(value)` is an uninterpreted function (`Services.render`).
- Values.Value: mapping keys are strings only. A YAML descriptor can have non-string keys (numbers, booleans, null); the source would then raise at `one_key.lower()` in `find_dict_key` (line 535) or in `str.format(**experiment_info)` (lines 431 and 433). The model cannot represent such trees, so those exceptions are not modelled.
- Publish.TargetDataset: `create_dataset` (lines 236-240) returns `return_json['id']` whenever that key exists, even when it is JSON null or not a string. The `create` oracle answers a string or None, so such an id is modelled as a failed create (`CreateDatasetFailed`). The source instead goes on with that id (lines 441-442); with a null id, no files and no metadata it answers `[{'id': None, 'created': True, 'file_ids': []}]`.
- Floats are not modelled. A float code, and the float case of `str`, have no `Value` constructor.
- `yaml.safe_load` also yields dates and timestamps (an unquoted `date: 2020-01-01`), byte strings and sets, which `Value` cannot hold. On the modelled paths these values are only rendered by `str()`, tested for truthiness or tested with `isinstance(dict)`. So a parser oracle that gives `Str(str(v))` for them loses nothing.
- Environment.CodeIsZero: `int(code)` on a string also accepts surrounding whitespace, `_` between digits and non-ASCII Unicode decimal digits. The model accepts only an optional sign followed by ASCII digits.
- Values.Lower: ASCII only, with no Unicode case mapping.
- Format.FormatWith: only keyword fields, `{{` and `}}`. Conversions, format specifications, attribute access and indexing in a field are reported as a format error; `str.format` would interpret them.
- Results.ProcessMetadata: the source visits the non-reserved keys in set order, which Python randomises. The model collects them in descriptor order, so the mapping built is the same up to key order.
- `start_message`, `end_message`, the framework's own `process_message`, argument parsing and logging are left out.
- The `else` branch of `relocate_files` for a source that is neither a mapping nor a string (line 182) cannot be reached from `process_message`, so `Staging.Source` has only the two shapes.
- The check `if not current_working_folder` (line 638) cannot fire: the staging folder joins `/mnt/` with the data folder and is never empty. It is left out.
- `resource['local_paths']` is given as `Request.localPaths`, next to the rest of the resource description.
- `deepcopy(current_step)` of the step definition is implicit, since values are immutable. The only field of the copy the step writes is `password`, which the trace records as `Credentials.passwordField`. `workstep_metadata` and `clowder_info` are passed on to the publishers, which never read them, so the model does not pass them.
- The connector object and `secret_key` are left out; they only reach the remote calls.

## Notes on the source

These are places where the source's behaviour differs from a natural
reading of its comments and docstrings. The model follows the code.

- `process_message` ignores the result of `process_results_json`. A step whose code is rejected answers false, but the loop goes on to the next step. The model records the answer in `StepTrace.accepted` and does not end the run.
- A code the step's predicate cannot convert (`int()` raising) ends the request with an exception (`BadReturnCode`). It is not treated as a rejection.
- When a container result has both `file` and `files`, both lists are uploaded, but the dataset record keeps only the records of `files` (`Publish.ContainerFilesKeepsLast`).
- The result of `process_result_file` and of `process_result_dataset` is discarded by `process_results_json`. The model keeps only their effect on the log and their errors.
- Every dataset name takes `name` from the experiment information, never from the step. Both pipeline steps' template `{date}_{experiment}_{name}` (lines 49 and 58) and the default template `{name}_{date}_{experiment}` do so. So when a container result needs a new dataset, a descriptor without `name` raises KeyError in every step (`Results.StepDatasetName`).
- `create_env_json` picks the experiment file with a case-insensitive `.yaml` match on the full path. `relocate_files` then recognises the descriptor by a case-sensitive suffix match on that base name, so any source whose path ends with the same name also counts as the descriptor. The last such source wins.
- `find_dict_key` compares keys below the top level case-sensitively against the lowered search key. So `Password` inside the `clowder` block is not found when the block is reached by recursion (`Search.DeeperLevelsAreCaseSensitive`). The `clowder` search itself and the three credential look-ups start at top level, so they are case-insensitive there.
