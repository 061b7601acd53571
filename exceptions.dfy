/** The exceptions the service raises and handles. Every class of the service's own hierarchy
    derives from `ASRException`; the others are the framework's and Python's. */
module AsrExceptions {
  import opened Common

  datatype AsrErrorKind =
    | ASRException
    | ModelLoadError
    | TranscriptionError
    | AudioLoadError
    | UnsupportedEngineError
    | ConfigurationError
    | WebSocketError

  /** `exc.__class__.__name__` of an exception of the service's own hierarchy. */
  function ClassName(k: AsrErrorKind): string
  {
    match k
    case ASRException => "ASRException"
    case ModelLoadError => "ModelLoadError"
    case TranscriptionError => "TranscriptionError"
    case AudioLoadError => "AudioLoadError"
    case UnsupportedEngineError => "UnsupportedEngineError"
    case ConfigurationError => "ConfigurationError"
    case WebSocketError => "WebSocketError"
  }

  /** An exception as the handlers see it.
      `Asr`: the service's own exceptions, created with one message argument.
      `Validation`: the framework's request-validation error, with its list of error details.
      `Http`: the framework's HTTP exception with its status code and detail.
      `Other`: any other exception, by class name and `str()` text. */
  datatype PyException =
    | Asr(kind: AsrErrorKind, message: string)
    | Validation(errors: seq<string>, text: string)
    | Http(statusCode: int, detail: string)
    | Other(className: string, text: string)

  /** `str(exc)`. An HTTP exception prints as `"<status>: <detail>"`. */
  function Str(e: PyException): string
  {
    match e
    case Asr(_, m) => m
    case Validation(_, t) => t
    case Http(code, detail) => IntToString(code) + ": " + detail
    case Other(_, t) => t
  }
}
