/** Error values of the asserter and the containers that carry them.
    The Go code returns plain `error` values; here each origin is its own
    variant and `Message` gives the text the Go code produces for it. */
module Errors {

  datatype Option<+T> = None | Some(value: T)

  datatype Error =
    /** findPath: no declared path template matched the URI */
    | UriMismatch
    /** findPath: a declared path template did not compile (cause from the template library) */
    | TemplateInvalid(cause: string)
    /** jsonpointer.New rejected the pointer text (cause from the pointer library) */
    | PointerInvalid(cause: string)
    /** findNode: the pointer does not address a node (cause from the pointer library) */
    | NodeNotFound(cause: string)
    /** ErrBodyNotFound */
    | BodyNotFound
    /** the body reader failed; its own error is returned */
    | ReadFailed(cause: string)
    /** reading a nil body: a Go runtime panic, modelled as an error value */
    | NilBodyPanic
    /** the schema validator could not load schema or data */
    | ValidatorUnavailable(cause: string)
    /** json.Marshal failed */
    | MarshalFailed(cause: string)
    /** an assertion failed: built by failf */
    | AssertionFailed(detail: string)
  {
    /** The text of the Go error value. */
    function Message(): string
    {
      match this
      case UriMismatch => "resource uri does not match"
      case TemplateInvalid(c) => "resource uri does not match: " + c
      case PointerInvalid(c) => c
      case NodeNotFound(c) => "node does not exists: " + c
      case BodyNotFound => "body does not exists"
      case ReadFailed(c) => c
      case NilBodyPanic => "runtime error: invalid memory address or nil pointer dereference"
      case ValidatorUnavailable(c) => c
      case MarshalFailed(c) => c
      case AssertionFailed(d) => "failed asserting that " + d
    }
  }

  /** The message prefixes callers match on, and the errors passed through unchanged. */
  lemma MessageShapes(e: Error)
    ensures e.UriMismatch? || e.TemplateInvalid? ==> StartsWith(e.Message(), "resource uri does not match")
    ensures e.NodeNotFound? ==> StartsWith(e.Message(), "node does not exists")
    ensures e.AssertionFailed? ==>
              StartsWith(e.Message(), "failed asserting that ") && EndsWith(e.Message(), e.detail)
    ensures e.ReadFailed? || e.ValidatorUnavailable? || e.MarshalFailed? ==> e.Message() == e.cause
  {
    match e
    case TemplateInvalid(c) =>
      assert ("resource uri does not match: " + c)[..27] == "resource uri does not match";
    case NodeNotFound(c) =>
      assert ("node does not exists: " + c)[..20] == "node does not exists";
    case AssertionFailed(d) =>
      var m := "failed asserting that " + d;
      assert m[..22] == "failed asserting that ";
      assert m[|m| - |d|..] == d;
    case _ =>
  }

  predicate StartsWith(s: string, prefix: string) {
    |prefix| <= |s| && s[..|prefix|] == prefix
  }

  predicate EndsWith(s: string, suffix: string) {
    |suffix| <= |s| && s[|s| - |suffix|..] == suffix
  }

  /** A value or the error that prevented it (Go's `(T, error)` pair). */
  datatype Result<+T> = Ok(value: T) | Err(error: Error)

  /** What an assertion returns: nil (Pass) or an error. */
  datatype Outcome = Pass | Fail(error: Error)
}
