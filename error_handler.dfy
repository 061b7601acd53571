/** The exception handlers: each turns an exception into a JSON response with a status code
    and a body. */
module ErrorHandler {
  import opened Common
  import opened AsrExceptions

  datatype Json = JString(s: string) | JList(items: seq<string>)

  datatype JsonResponse = JsonResponse(statusCode: int, content: map<string, Json>)

  const InternalServerError: int := 500
  const UnprocessableEntity: int := 422

  /** An exception of the service's own hierarchy: 500, with its message and class name. */
  function AsrExceptionHandler(exc: PyException): (r: JsonResponse)
    requires exc.Asr?
    ensures r.statusCode == InternalServerError
    ensures r.content.Keys == {"error", "message", "type"}
    ensures r.content["error"] == JString("ASR Error")
    ensures r.content["message"] == JString(Str(exc))
    ensures r.content["type"] == JString(ClassName(exc.kind))
  {
    JsonResponse(InternalServerError, map["error" := JString("ASR Error"), "message" := JString(Str(exc)),
                                          "type" := JString(ClassName(exc.kind))])
  }

  /** A request-validation error: 422, with the error details. */
  function ValidationExceptionHandler(exc: PyException): (r: JsonResponse)
    requires exc.Validation?
    ensures r.statusCode == UnprocessableEntity
    ensures r.content.Keys == {"error", "message", "details"}
    ensures r.content["error"] == JString("Validation Error")
    ensures r.content["message"] == JString("Invalid request data")
    ensures r.content["details"] == JList(exc.errors)
  {
    JsonResponse(UnprocessableEntity, map["error" := JString("Validation Error"),
                                          "message" := JString("Invalid request data"),
                                          "details" := JList(exc.errors)])
  }

  /** An HTTP exception keeps its own status code and reports its detail. */
  function HttpExceptionHandler(exc: PyException): (r: JsonResponse)
    requires exc.Http?
    ensures r.statusCode == exc.statusCode
    ensures r.content.Keys == {"error", "message"}
    ensures r.content["error"] == JString("HTTP Error")
    ensures r.content["message"] == JString(exc.detail)
  {
    JsonResponse(exc.statusCode, map["error" := JString("HTTP Error"), "message" := JString(exc.detail)])
  }

  /** Any other exception: 500 and a fixed message. */
  function GeneralExceptionHandler(exc: PyException): (r: JsonResponse)
    ensures r.statusCode == InternalServerError
    ensures r.content == map["error" := JString("Internal Server Error"),
                             "message" := JString("An unexpected error occurred")]
  {
    JsonResponse(InternalServerError, map["error" := JString("Internal Server Error"),
                                          "message" := JString("An unexpected error occurred")])
  }

  /** The handler for an exception's own kind. Every response names an error and carries a
      message, and only an HTTP exception chooses its own status code. */
  function Handle(exc: PyException): (r: JsonResponse)
    ensures "error" in r.content && "message" in r.content
    ensures !exc.Http? ==> r.statusCode in {InternalServerError, UnprocessableEntity}
    ensures r.statusCode == UnprocessableEntity <==> exc.Validation? || (exc.Http? && exc.statusCode == 422)
  {
    match exc
    case Asr(_, _) => AsrExceptionHandler(exc)
    case Validation(_, _) => ValidationExceptionHandler(exc)
    case Http(_, _) => HttpExceptionHandler(exc)
    case Other(_, _) => GeneralExceptionHandler(exc)
  }

  /** The status code of each kind: 500 for the service's own and for unexpected exceptions,
      422 for a validation error, and an HTTP exception's own code. */
  lemma StatusCodes(exc: PyException)
    ensures Handle(exc).statusCode == match exc
                                      case Asr(_, _) => 500
                                      case Validation(_, _) => 422
                                      case Http(code, _) => code
                                      case Other(_, _) => 500
  {
  }

  /** The response to one of the service's own exceptions determines the exception: its
      kind and its message can be read back. */
  lemma AsrResponseIdentifiesException(a: PyException, b: PyException)
    requires a.Asr? && b.Asr?
    requires AsrExceptionHandler(a) == AsrExceptionHandler(b)
    ensures a == b
  {
    assert JString(a.message) == AsrExceptionHandler(a).content["message"];
    assert JString(ClassName(a.kind)) == AsrExceptionHandler(a).content["type"];
    ClassNameInjective(a.kind, b.kind);
  }

  /** The response to a validation error reports exactly its error details. */
  lemma ValidationResponseIdentifiesErrors(a: PyException, b: PyException)
    requires a.Validation? && b.Validation?
    requires ValidationExceptionHandler(a) == ValidationExceptionHandler(b)
    ensures a.errors == b.errors
  {
    assert JList(a.errors) == ValidationExceptionHandler(a).content["details"];
  }

  /** The response to an HTTP exception determines it: its status code and its detail. */
  lemma HttpResponseIdentifiesException(a: PyException, b: PyException)
    requires a.Http? && b.Http?
    requires HttpExceptionHandler(a) == HttpExceptionHandler(b)
    ensures a == b
  {
    assert JString(a.detail) == HttpExceptionHandler(a).content["message"];
  }

  lemma ClassNameInjective(k: AsrErrorKind, l: AsrErrorKind)
    requires ClassName(k) == ClassName(l)
    ensures k == l
  {
  }

  /** An unexpected exception's response reveals nothing about it. */
  lemma GeneralResponseHidesException(a: PyException, b: PyException)
    requires a.Other? && b.Other?
    ensures Handle(a) == Handle(b)
  {
  }
}
