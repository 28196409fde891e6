/** The errors the commands report. Each constructor stands for one `bail!` or
    one propagated failure of the source; the comment gives its message. */
module Errors {

  /** Why `validate_context_name` rejected a name, one per check, in check order. */
  datatype NameError =
    | Empty              // "Context name cannot be empty."
    | DotOrDotDot        // "Context name cannot be '.' or '..'."
    | LeadingDot         // "Context name cannot start with a dot."
    | PathSeparator      // "Context name cannot contain path separators ('/' or '\\')."
    | ControlCharacter   // "Context name cannot contain control characters."

  /** The three `gcloud` queries that `save` runs, in the order it runs them. */
  datatype ConfigKey = ActiveConfig | Account | Project

  datatype Error =
    | InvalidName(reason: NameError)
      // "No credentials found at ...": the live ADC file is missing
    | NoCredentials
      // "Context '<name>' not found."
    | ContextNotFound(name: string)
      // "Failed to get current gcloud config/account/project": gcloud could not be started
    | QueryFailed(key: ConfigKey)
      // the metadata file exists but cannot be read or parsed
    | CorruptMetadata
      // a directory cannot be created where a plain file of that name exists
    | CannotCreateDirectory(name: string)
      // writing a context's metadata file when the context has no directory
    | CannotWriteMetadata(name: string)
      // "Failed to execute ...": the program could not be started
    | SpawnFailed(program: string)
      // "gcloud error: <stderr>"
    | GcloudError(stderr: string)
      // "No command specified."
    | NoCommand
      // "Command exited with code <code>"
    | CommandExited(code: int)
      // the interactive selection prompt returned an error
    | SelectionFailed
}
