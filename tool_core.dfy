/** What a tool's `_run` hands back to the agent framework: the output string, or the
    error it throws. Upstream clients (the Flickr SDK, the HTTP fetch, the vision-model
    client) are given to the tools as functions that answer in the same form. */
module ToolCore {
  import opened JsText

  /** The class of a thrown error, which is also its `name`. */
  datatype ErrorKind =
    | ToolInputValidationError
    | Error
    | TypeError
    | Other(name: string)

  /** A thrown `Error` object: its class and its `message`. */
  datatype Failure = Failure(kind: ErrorKind, message: string)

  /** Either a value or a thrown error. */
  datatype Outcome<+T> = Ok(value: T) | Threw(error: Failure)

  /** A tool's `StringToolOutput`, or what its `_run` throws. */
  type ToolResult = Outcome<string>

  function KindName(kind: ErrorKind): string {
    match kind
    case ToolInputValidationError => "ToolInputValidationError"
    case Error => "Error"
    case TypeError => "TypeError"
    case Other(name) => name
  }

  /** `${error.message || error}`: the message when it is non-empty, otherwise the
      error's own text, which for an `Error` with an empty message is its name. */
  function Describe(e: Failure): string {
    if e.message != "" then e.message else KindName(e.kind)
  }

  /** The `catch` block shared by the search and description tools:
      `throw new ToolInputValidationError(`${context}(${error.message || error})`)`. */
  function Rewrap(context: string, e: Failure): (f: Failure)
    ensures f.kind == ToolInputValidationError
    ensures StartsWith(f.message, context + "(") && EndsWith(f.message, ")")
    ensures e.message != "" ==> f.message == context + "(" + e.message + ")"
  {
    Failure(ToolInputValidationError, context + "(" + Describe(e) + ")")
  }
}
