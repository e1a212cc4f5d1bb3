/** The error kinds the resolver reports (the `VcvarsError` enum). */
module Errors {

  /** An operating-system I/O failure, kept only as its description. */
  datatype IoError = IoError(description: string)

  datatype VcvarsError =
    /** A required environment variable of the build process is not set; carries its name. */
    | MissingEnvVarDependency(varName: string)
    /** An expected file is not a regular file at the computed path. */
    | FileNotFound(path: string)
    /** No initialization-script token exists for the (host, target) pair. */
    | UnsupportedArch
    /** A child process could not be spawned. */
    | CouldntRun(program: string, cause: IoError)
    /** The initialization script reported an error; carries its output on one line. */
    | VcvarsFailed(output: string)
    /** A cache directory or cache file operation failed. */
    | CacheFailed(path: string, cause: IoError)
    /** The environment has no variable of that name; carries the name as requested. */
    | VarNotFound(varName: string)
}
