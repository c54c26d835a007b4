/**
 * backend/accounts/utils/exceptions.py: `custom_exception_handler`, a first-match chain
 * from the kind of exception a view raised to an error envelope.
 */
module ExceptionHandler {
  import opened Wrappers
  import opened PyData
  import opened Responses

  /** The exception kinds the handler tells apart, with the attributes it reads. */
  datatype ApiException =
    | NotAuthenticated
    | AuthenticationFailed
    | PermissionDenied(detail: Value)       // the REST framework's, which carries `detail`
    | DjangoPermissionDenied                // Django's own, which has no `detail` attribute
    | ValidationError(detail: Value)
    | ParseError
    | MethodNotAllowed(httpMethod: string)  // the framework's; the method goes into `detail`, no `method` attribute is kept
    | NotFound
    | Http404
    | UnsupportedMediaType
    | Throttled(wait: Value)
    | OtherApiException(statusCode: int, detail: Value)   // any other exception the framework's own handler answers
    | Unrecognised(text: string)                            // anything else; `text` is `str(exc)`

  /**
   * The body the framework's default `exception_handler` gives an `OtherApiException`:
   * a list or dict detail as it is, any other detail wrapped as {"detail": detail}.
   */
  function DefaultHandlerData(detail: Value): (data: Value)
    ensures data.ListV? <==> detail.ListV?
    ensures detail.ListV? || detail.DictV? ==> data == detail
    ensures !detail.ListV? && !detail.DictV? ==> data == DictV(map["detail" := detail])
  {
    if detail.ListV? || detail.DictV? then detail else DictV(map["detail" := detail])
  }

  /** `response.data.get("detail", "An error occurred")`; a list body has no `get`. */
  function DetailOrDefault(data: Value): (r: Result<Value, PyExc>)
    ensures r.Failure? <==> !data.DictV?
    ensures r.Success? ==> r.value == (if "detail" in data.entries then data.entries["detail"] else StrV("An error occurred"))
  {
    if data.DictV? then
      Success(if "detail" in data.entries then data.entries["detail"] else StrV("An error occurred"))
    else Failure(AttributeError(TypeName(data), "get"))
  }

  const AuthMessage := "Invalid or missing authentication credentials"
  const PermissionMessage := "You do not have permission to perform this action"
  const UnexpectedMessage := "An unexpected error occurred. Please contact support."

  /**
   * `custom_exception_handler` as written. A `Failure` is an exception raised by the
   * handler itself, which then leaves the request without an envelope.
   */
  function CustomExceptionHandler(exc: ApiException): (r: Result<Response, PyExc>)
    ensures r.Failure? <==>
      exc.DjangoPermissionDenied? || exc.MethodNotAllowed? || (exc.OtherApiException? && exc.detail.ListV?)
  {
    match exc
    case NotAuthenticated => Success(ErrorResponse(StrV(AuthMessage), 401))
    case AuthenticationFailed => Success(ErrorResponse(StrV(AuthMessage), 401))
    case PermissionDenied(detail) => Success(ErrorResponse(StrV(PermissionMessage), 403, detail))
    case DjangoPermissionDenied => Failure(AttributeError("PermissionDenied", "detail"))
    case ValidationError(detail) => Success(ErrorResponse(StrV("Invalid input data"), 400, detail))
    case ParseError => Success(ErrorResponse(StrV("Malformed request data"), 400))
    case MethodNotAllowed(_) => Failure(AttributeError("MethodNotAllowed", "method"))
    case NotFound => Success(ErrorResponse(StrV("The requested resource was not found"), 404))
    case Http404 => Success(ErrorResponse(StrV("The requested resource was not found"), 404))
    case UnsupportedMediaType => Success(ErrorResponse(StrV("Unsupported media type"), 415))
    case Throttled(wait) =>
      Success(ErrorResponse(StrV("Request was throttled. Please try again later."), 429, DictV(map["retry_after" := wait])))
    case OtherApiException(statusCode, detail) =>
      var message :- DetailOrDefault(DefaultHandlerData(detail));
      Success(ErrorResponse(message, statusCode))
    case Unrecognised(text) =>
      Success(ErrorResponse(StrV(UnexpectedMessage), 500, DictV(map["error" := StrV(text)])))
  }

  /**
   * The handler's table, first match first: authentication failures 401 without detail;
   * the framework's permission denial 403 with its detail; validation 400 with the field
   * detail; parse errors 400; a disallowed method raises on `exc.method`; not-found 404;
   * unsupported media 415; throttling 429 with the wait; any other exception the framework
   * answers keeps its status and shows its detail (or "An error occurred"), and raises on a
   * list detail; anything unrecognised 500 with its text.
   */
  lemma HandlerTable(exc: ApiException)
    ensures exc.NotAuthenticated? || exc.AuthenticationFailed? ==> CustomExceptionHandler(exc) == Success(ErrorResponse(StrV(AuthMessage), 401))
    ensures exc.PermissionDenied? ==> CustomExceptionHandler(exc) == Success(ErrorResponse(StrV(PermissionMessage), 403, exc.detail))
    ensures exc.DjangoPermissionDenied? ==> CustomExceptionHandler(exc) == Failure(AttributeError("PermissionDenied", "detail"))
    ensures exc.ValidationError? ==> CustomExceptionHandler(exc) == Success(ErrorResponse(StrV("Invalid input data"), 400, exc.detail))
    ensures exc.ParseError? ==> CustomExceptionHandler(exc) == Success(ErrorResponse(StrV("Malformed request data"), 400))
    ensures exc.MethodNotAllowed? ==> CustomExceptionHandler(exc) == Failure(AttributeError("MethodNotAllowed", "method"))
    ensures exc.NotFound? || exc.Http404? ==> CustomExceptionHandler(exc) == Success(ErrorResponse(StrV("The requested resource was not found"), 404))
    ensures exc.UnsupportedMediaType? ==> CustomExceptionHandler(exc) == Success(ErrorResponse(StrV("Unsupported media type"), 415))
    ensures exc.Throttled? ==>
      CustomExceptionHandler(exc) == Success(ErrorResponse(StrV("Request was throttled. Please try again later."), 429, DictV(map["retry_after" := exc.wait])))
    ensures exc.OtherApiException? ==> (CustomExceptionHandler(exc).Failure? <==> exc.detail.ListV?)
    ensures exc.OtherApiException? && !exc.detail.ListV? ==>
      CustomExceptionHandler(exc) == Success(ErrorResponse(
        if exc.detail.DictV? then (if "detail" in exc.detail.entries then exc.detail.entries["detail"] else StrV("An error occurred"))
        else exc.detail,
        exc.statusCode))
    ensures exc.Unrecognised? ==> CustomExceptionHandler(exc) == Success(ErrorResponse(StrV(UnexpectedMessage), 500, DictV(map["error" := StrV(exc.text)])))
  {
    match exc
    case OtherApiException(statusCode, detail) =>
    case _ =>
  }

  /** Whatever it is given, the handler never answers with a success flag. */
  lemma HandlerAlwaysReportsFailure(exc: ApiException)
    ensures CustomExceptionHandler(exc).Success? ==>
      "success" in CustomExceptionHandler(exc).value.data && CustomExceptionHandler(exc).value.data["success"] == BoolV(false)
  {
  }

  /** Django's PermissionDenied reaches `exc.detail`, which it does not have: the handler raises. */
  lemma DjangoPermissionDeniedEscapes()
    ensures CustomExceptionHandler(DjangoPermissionDenied) == Failure(AttributeError("PermissionDenied", "detail"))
  {
  }

  /** The framework's MethodNotAllowed keeps the method only inside its `detail`, so reading
      `exc.method` raises: a GET to a POST-only view gets no envelope. */
  lemma MethodNotAllowedEscapes()
    ensures CustomExceptionHandler(MethodNotAllowed("GET")) == Failure(AttributeError("MethodNotAllowed", "method"))
  {
  }

  /** An exception whose detail is a list gets a list body from the framework, and a list has no `get`. */
  lemma ListDetailEscapes(statusCode: int)
    ensures CustomExceptionHandler(OtherApiException(statusCode, ListV([StrV("a")]))).Failure?
  {
  }

  /** The statuses the handler answers with, besides a framework-chosen one. */
  predicate FixedStatus(status: int) {
    status in {400, 401, 403, 404, 405, 415, 429, 500}
  }

  /**
   * The handler as evidently intended: the same table, except that a permission denial
   * without a `detail` gets the 403 envelope without `errors`, a disallowed method gets the
   * 405 envelope naming the request's method, and a list body gets the default message.
   */
  function ExceptionEnvelope(exc: ApiException): (r: Response)
    ensures r.data.Keys >= {"success", "message"} && r.data["success"] == BoolV(false)
    ensures !exc.OtherApiException? ==> r.data["message"].StrV?
    ensures exc.OtherApiException? ==> r.status == exc.statusCode
    ensures !exc.OtherApiException? ==> FixedStatus(r.status)
    ensures exc.DjangoPermissionDenied? ==> r == ErrorResponse(StrV(PermissionMessage), 403)
    ensures exc.MethodNotAllowed? ==>
      r == ErrorResponse(StrV("Method '" + exc.httpMethod + "' not allowed on this endpoint"), 405)
    ensures exc.OtherApiException? && exc.detail.ListV? ==> r == ErrorResponse(StrV("An error occurred"), exc.statusCode)
    ensures CustomExceptionHandler(exc).Success? ==> CustomExceptionHandler(exc) == Success(r)
  {
    match exc
    case DjangoPermissionDenied => ErrorResponse(StrV(PermissionMessage), 403)
    case MethodNotAllowed(httpMethod) => ErrorResponse(StrV("Method '" + httpMethod + "' not allowed on this endpoint"), 405)
    case OtherApiException(statusCode, detail) =>
      var message := DetailOrDefault(DefaultHandlerData(detail));
      ErrorResponse(if message.Success? then message.value else StrV("An error occurred"), statusCode)
    case _ => CustomExceptionHandler(exc).value
  }
}
