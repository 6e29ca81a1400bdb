/**
 * The error type every fallible operation of the model returns (the
 * source's `ClaudeError`). Variants that wrap a library error keep that
 * error's text as `detail`.
 */
module Errors {

  datatype ClaudeError =
    | Config(detail: string)
    | Io(detail: string)
    | Network(detail: string)
    | Json(detail: string)
    | Yaml(detail: string)
    | McpServer(message: string)
    | Permission(operation: string)
    | Validation(field: string, message: string)
    | General(message: string)
    | NotImplemented(feature: string)

  /** Whether the variant wraps a library error that cannot itself be cloned. */
  predicate WrapsLibraryError(e: ClaudeError) {
    e.Config? || e.Io? || e.Network? || e.Json? || e.Yaml?
  }

  /**
   * The hand-written `Clone`: a wrapped library error becomes a `General`
   * error naming only its kind; every other variant is copied.
   */
  function Clone(e: ClaudeError): (c: ClaudeError)
    ensures WrapsLibraryError(e) ==> c.General?
    ensures !WrapsLibraryError(e) ==> c == e
    ensures !WrapsLibraryError(c)
  {
    match e
    case Config(_) => General("Configuration error")
    case Io(_) => General("IO error")
    case Network(_) => General("Network error")
    case Json(_) => General("JSON error")
    case Yaml(_) => General("YAML error")
    case _ => e
  }

  /** A clone of a clone is the clone: cloning loses information once and only once. */
  lemma CloneIdempotent(e: ClaudeError)
    ensures Clone(Clone(e)) == Clone(e)
  {
  }

  /** `Display`, as the `#[error]` attributes spell it. */
  function Display(e: ClaudeError): string {
    match e
    case Config(d) => "Configuration error: " + d
    case Io(d) => "File system error: " + d
    case Network(d) => "Network error: " + d
    case Json(d) => "JSON error: " + d
    case Yaml(d) => "YAML error: " + d
    case McpServer(m) => "MCP server error: " + m
    case Permission(op) => "Permission denied: " + op
    case Validation(f, m) => "Validation error: " + f + " - " + m
    case General(m) => "General error: " + m
    case NotImplemented(f) => "Feature not implemented: " + f
  }

  /** `config_error`, `network_error` and `fs_error` build `General` errors with a prefix. */
  function ConfigError(msg: string): ClaudeError {
    General("Configuration error: " + msg)
  }

  function NetworkError(msg: string): ClaudeError {
    General("Network error: " + msg)
  }

  function FsError(msg: string): ClaudeError {
    General("File system error: " + msg)
  }

  /** The prefixed helpers survive cloning unchanged. */
  lemma HelpersSurviveClone(msg: string)
    ensures Clone(ConfigError(msg)) == ConfigError(msg)
    ensures Clone(FsError(msg)) == FsError(msg)
    ensures Display(FsError(msg)) == "General error: File system error: " + msg
  {
  }
}
