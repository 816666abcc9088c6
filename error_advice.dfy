/**
 * The exception handlers that answer with a plain map body (`status`,
 * `error`, `message`, and `errors` for a validation failure) under the
 * status they name.
 */
module ErrorAdvice {
  import opened Wrappers
  import opened Exceptions
  import opened HashMaps
  import opened ApiResponses
  import opened ErrorCodes
  import Http

  /** A `ResponseEntity<Map<String, Object>>`. */
  datatype ErrorResponse = ErrorResponse(status: Http.HttpStatus, body: map<string, Json>)

  /** What a handler does: answer, or throw. */
  datatype HandlerOutcome = Respond(response: ErrorResponse) | Throw(thrown: Exception)

  const VALIDATION_MESSAGE := "입력값 유효성 검사에 실패했습니다."
  const INTERNAL_MESSAGE := "서버 내부 오류가 발생했습니다. 관리자에게 문의해주세요."

  /** The body `createErrorResponse` builds: always the status value, the
      error name and the message (even a null one); the field map only when
      there is one and it is not empty. */
  function ErrorBody(status: Http.HttpStatus, error: string, message: Option<string>,
                     validationErrors: Option<map<string, string>>): (body: map<string, Json>)
    ensures body.Keys == {"status", "error", "message"} +
                         (if validationErrors.Some? && |validationErrors.value| > 0 then {"errors"} else {})
    ensures body["status"] == JInt(status.Value())
    ensures body["error"] == JString(Some(error)) && body["message"] == JString(message)
    ensures "errors" in body ==> body["errors"] == JObject(validationErrors.value)
  {
    var core := map["status" := JInt(status.Value()), "error" := JString(Some(error)), "message" := JString(message)];
    if validationErrors.Some? && |validationErrors.value| > 0 then core["errors" := JObject(validationErrors.value)]
    else core
  }

  /** `createErrorResponse`: the body is filled one `put` at a time. */
  method CreateErrorResponse(status: Http.HttpStatus, error: string, message: Option<string>,
                             validationErrors: Option<map<string, string>>) returns (r: ErrorResponse)
    ensures r == ErrorResponse(status, ErrorBody(status, error, message, validationErrors))
  {
    var body: map<string, Json> := map[];
    body := body["status" := JInt(status.Value())];
    body := body["error" := JString(Some(error))];
    body := body["message" := JString(message)];
    if validationErrors.Some? && |validationErrors.value| > 0 {
      body := body["errors" := JObject(validationErrors.value)];
    }
    r := ErrorResponse(status, body);
  }

  /** Whether some error of the binding is not a field error. */
  predicate HasGlobalError(errors: seq<BindingError>) {
    exists i :: 0 <= i < |errors| && errors[i].GlobalError?
  }

  /** The handler Spring picks for `e`, and what it does. A validation
      failure casts every error to a field error, so an error of the object
      as a whole makes the handler itself throw. */
  function Resolve(e: Exception): HandlerOutcome {
    match e
    case MethodArgumentNotValid(errors) =>
      if HasGlobalError(errors) then Throw(ClassCast)
      else Respond(ErrorResponse(Http.BAD_REQUEST,
                     ErrorBody(Http.BAD_REQUEST, "ValidationFailed", Some(VALIDATION_MESSAGE), Some(Puts(FieldEntries(errors))))))
    case IllegalArgument(m) =>
      Respond(ErrorResponse(Http.BAD_REQUEST, ErrorBody(Http.BAD_REQUEST, "IllegalArgument", m, None)))
    case IllegalState(m) =>
      Respond(ErrorResponse(Http.CONFLICT, ErrorBody(Http.CONFLICT, "IllegalState", m, None)))
    case _ =>
      Respond(ErrorResponse(Http.INTERNAL_SERVER_ERROR,
                ErrorBody(Http.INTERNAL_SERVER_ERROR, "InternalServerError", Some(INTERNAL_MESSAGE), None)))
  }

  /** `handleValidationExceptions`: every error in turn is cast to a field
      error and put into a new map. */
  method HandleValidation(errors: seq<BindingError>) returns (out: HandlerOutcome)
    ensures out == Resolve(MethodArgumentNotValid(errors))
  {
    var fieldErrors: map<string, string> := map[];
    var i := 0;
    while i < |errors|
      invariant 0 <= i <= |errors|
      invariant forall j :: 0 <= j < i ==> errors[j].FieldError?
      invariant fieldErrors == Puts(FieldEntries(errors[..i]))
    {
      if errors[i].GlobalError? {
        assert HasGlobalError(errors);
        return Throw(ClassCast);
      }
      FieldEntriesExtend(errors, i);
      fieldErrors := fieldErrors[errors[i].field := errors[i].message];
      i := i + 1;
    }
    assert errors[..i] == errors;
    assert !HasGlobalError(errors);
    var response := CreateErrorResponse(Http.BAD_REQUEST, "ValidationFailed", Some(VALIDATION_MESSAGE), Some(fieldErrors));
    out := Respond(response);
  }

  lemma FieldEntriesExtend(errors: seq<BindingError>, i: int)
    requires 0 <= i < |errors| && errors[i].FieldError?
    ensures FieldEntries(errors[..i + 1]) == FieldEntries(errors[..i]) + [(errors[i].field, errors[i].message)]
  {
    assert errors[..i + 1][..i] == errors[..i];
  }

  /** The handlers. */
  method Handle(e: Exception) returns (out: HandlerOutcome)
    ensures out == Resolve(e)
  {
    match e {
      case MethodArgumentNotValid(errors) =>
        out := HandleValidation(errors);
      case IllegalArgument(m) =>
        var response := CreateErrorResponse(Http.BAD_REQUEST, "IllegalArgument", m, None);
        out := Respond(response);
      case IllegalState(m) =>
        var response := CreateErrorResponse(Http.CONFLICT, "IllegalState", m, None);
        out := Respond(response);
      case _ =>
        var response := CreateErrorResponse(Http.INTERNAL_SERVER_ERROR, "InternalServerError", Some(INTERNAL_MESSAGE), None);
        out := Respond(response);
    }
  }

  /** Every answer carries its own status value in the body, with the
      error name and message, and only a validation failure adds `errors`. */
  lemma BodiesAgreeWithStatus(e: Exception)
    requires Resolve(e).Respond?
    ensures var r := Resolve(e).response;
            && {"status", "error", "message"} <= r.body.Keys
            && r.body["status"] == JInt(r.status.Value())
            && ("errors" in r.body ==> e.MethodArgumentNotValid?)
  {
  }

  /** A validation failure made only of field errors answers 400 with the
      fields' map, present exactly when some field failed; any error of the
      object as a whole makes the handler throw instead. */
  lemma ValidationAnswer(errors: seq<BindingError>)
    ensures HasGlobalError(errors) <==> Resolve(MethodArgumentNotValid(errors)) == Throw(ClassCast)
    ensures !HasGlobalError(errors) ==>
              var r := Resolve(MethodArgumentNotValid(errors)).response;
              && r.status == Http.BAD_REQUEST
              && ("errors" in r.body <==> |errors| > 0)
              && ("errors" in r.body ==> r.body["errors"] == JObject(Puts(FieldEntries(errors))))
  {
    if !HasGlobalError(errors) {
      FieldMapEmpty(errors);
    }
  }

  /** Without errors of the whole object, the field map is empty exactly
      when there are no errors. */
  lemma FieldMapEmpty(errors: seq<BindingError>)
    requires !HasGlobalError(errors)
    ensures |Puts(FieldEntries(errors))| > 0 <==> |errors| > 0
  {
    if |errors| > 0 {
      var n := |errors| - 1;
      assert errors[n].FieldError?;
      var entries := FieldEntries(errors);
      assert entries == FieldEntries(errors[..n]) + [(errors[n].field, errors[n].message)];
      assert entries[|entries| - 1].0 in Puts(entries);
    }
  }

  /** The argument and state handlers pass the exception's message through
      under 400 and 409; everything else, an `ApiException` included, gets
      500 and one fixed message, whatever it carried. */
  lemma StatusByClass(e: Exception, e2: Exception)
    ensures e.IllegalArgument? ==> Resolve(e).response.status == Http.BAD_REQUEST && Resolve(e).response.body["message"] == JString(e.message)
    ensures e.IllegalState? ==> Resolve(e).response.status == Http.CONFLICT && Resolve(e).response.body["message"] == JString(e.message)
    ensures !(e.MethodArgumentNotValid? || e.IllegalArgument? || e.IllegalState?) ==>
              Resolve(e).response.status == Http.INTERNAL_SERVER_ERROR
    ensures !(e.MethodArgumentNotValid? || e.IllegalArgument? || e.IllegalState?) &&
            !(e2.MethodArgumentNotValid? || e2.IllegalArgument? || e2.IllegalState?) ==>
              Resolve(e) == Resolve(e2)
  {
  }

  /** These handlers return a `ResponseEntity` from inside the application's
      package, so the response advice wraps each answer: the client gets a
      success envelope with status 200 and code "BERC-200" whose data is the
      error map, never the status the handler chose. */
  lemma AnswersReachClientAsSuccess(e: Exception)
    requires Resolve(e).Respond?
    ensures var r := Resolve(e).response;
            var w := Written(ResponseEntityType, Plain(ObjectMap(r.body)));
            && w == Envelope(SuccessWith(OK, ObjectMap(r.body)))
            && w.response.status == 200 && w.response.code == "BERC-200"
            && w.response.status != r.status.Value()
  {
  }
}
