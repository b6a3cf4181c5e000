/** Failure-compatible wrappers shared by every module, and the causes of the
    exceptions the step orchestrator raises. */
module Base {

  datatype Option<T> = None | Some(value: T)

  /** One constructor per distinct exception the orchestrator can end a
      request with (configuration, staging, execution, results, publishing). */
  datatype Error =
    | NoNamedVolume
    | NoWorkingSpace
    | NoExperimentFile
    | NoExperimentMetadata
    | ExperimentOutsideBase(path: string)
    | ExperimentUnreadable(path: string)
    | FolderUnreadable(path: string)
    | ProcessTimedOut(step: nat)
    | ResultsNotFound(path: string)
    | ResultsUnreadable(path: string)
    | KeyMissing(key: string)
    | TypeMismatch
    | BadReturnCode
    | FormatError
    | UploadFailed
    | CreateDatasetFailed(name: string)
    | NoTargetDataset

  datatype Result<T> = Ok(value: T) | Err(error: Error)
}
