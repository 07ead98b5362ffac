/** Errors, and the Go idiom of returning a value together with an `error`. */
module Errors {

  /** Every error the job package produces or passes through. */
  datatype Error =
    | ConfigFileRequired
    | TemplateFileRequired
    | ContainerRequired
    | ContainerNotInTemplate
    | JobFailed(reason: string)
    /** An error returned by a call to the cluster client or another collaborator, passed on unchanged. */
    | ClientError(cause: string)

  /** The text each error carries (the source's spelling, typo included). */
  function Message(e: Error): (r: string)
    ensures e == ConfigFileRequired ==> r == "Config file is required"
    ensures e == TemplateFileRequired ==> r == "Template file is required"
    ensures e == ContainerRequired ==> r == "Container is required"
    ensures e == ContainerNotInTemplate ==> r == "Container does not exit in the template"
    ensures e.JobFailed? ==> r == "Job is failed: " + e.reason
    ensures e.ClientError? ==> r == e.cause
  {
    match e
    case ConfigFileRequired => "Config file is required"
    case TemplateFileRequired => "Template file is required"
    case ContainerRequired => "Container is required"
    case ContainerNotInTemplate => "Container does not exit in the template"
    case JobFailed(reason) => "Job is failed: " + reason
    case ClientError(cause) => cause
  }

  /** A failed job's message ends with exactly the reason of its failed condition. */
  lemma FailedMessageCarriesReason(reason: string)
    ensures |Message(JobFailed(reason))| == 15 + |reason|
    ensures Message(JobFailed(reason))[..15] == "Job is failed: "
    ensures Message(JobFailed(reason))[15..] == reason
  {
  }

  /** A result of type T or an error: Go's `(T, error)` pair. */
  datatype Result<T> = Ok(value: T) | Err(error: Error)

  /** A bare Go `error`: nil (Pass) or non-nil (Fail). */
  datatype Outcome = Pass | Fail(error: Error)

  datatype Option<T> = None | Some(value: T)
}
