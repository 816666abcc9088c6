/**
 * The response envelope `ApiResponse` with its factories, and
 * `ResponseAdvice`, which wraps every body that is not already an envelope.
 */
module ApiResponses {
  import opened Wrappers
  import opened JavaLang
  import opened ErrorCodes
  import opened Exceptions
  import opened Dto
  import Http

  /** A value of the `Map<String, Object>` bodies: a number, a string that
      may be null, or a nested string map. */
  datatype Json = JInt(n: int) | JString(s: Option<string>) | JObject(fields: map<string, string>)

  /** The objects the core puts in a body. */
  datatype Payload =
    | LoginData(login: LoginResponse)
    | SignUpRequiredData(required: SignUpRequiredResponse)
    /** A `Map<String, String>`, whose values may be null. */
    | StringMap(entries: map<string, Option<string>>)
    /** A `Map<String, Object>`. */
    | ObjectMap(fields: map<string, Json>)

  /** `ApiResponse`: status value, code, message, and `data`, which is left
      out of the JSON when null. */
  datatype ApiResponse = ApiResponse(status: int, code: string, message: string, data: Option<Payload>)

  /** `success(code)`. */
  function Success(success: CommonSuccessCode): ApiResponse {
    ApiResponse(success.Status().Value(), success.Code(), success.Message(), None)
  }

  /** `success(code, data)`. */
  function SuccessWith(success: CommonSuccessCode, data: Payload): ApiResponse {
    ApiResponse(success.Status().Value(), success.Code(), success.Message(), Some(data))
  }

  /** `fail(ex, error)`. */
  function Fail(ex: ApiException, error: ErrorCode): ApiResponse {
    ApiResponse(ex.status.Value(), error.Code(), error.Message(), None)
  }

  /** `fail(ex, error, data)`. */
  function FailWith(ex: ApiException, error: ErrorCode, data: Payload): ApiResponse {
    ApiResponse(ex.status.Value(), error.Code(), error.Message(), Some(data))
  }

  /** `fail(code, message)`. */
  function FailCode(code: string, message: string): ApiResponse {
    ApiResponse(Http.HttpStatus.INTERNAL_SERVER_ERROR.Value(), code, message, None)
  }

  /** The success envelopes carry the code's status and "BERC-" followed by
      that status, with or without data. */
  lemma SuccessEnvelopes(s: CommonSuccessCode, data: Payload)
    ensures Success(s).status == s.Status().Value()
    ensures Success(s).code == "BERC-" + NatToString(s.Status().Value())
    ensures SuccessWith(s, data).code == Success(s).code && SuccessWith(s, data).status == Success(s).status
    ensures SuccessWith(s, data).data == Some(data) && Success(s).data.None?
    ensures Success(OK).status == 200 && Success(CREATED).status == 201 && Success(NO_CONTENT).status == 204
  {
    SuccessCodeIsStatus(s);
  }

  /** A failure envelope takes its status from the exception and its code
      and message from the error code, which need not agree with it; the
      two-string form is always 500. */
  lemma FailEnvelopes(ex: ApiException, error: ErrorCode, data: Payload, code: string, message: string)
    ensures Fail(ex, error).status == ex.status.Value()
    ensures Fail(ex, error).code == error.Code() && Fail(ex, error).message == error.Message()
    ensures FailWith(ex, error, data) == Fail(ex, error).(data := Some(data))
    ensures FailCode(code, message).status == 500 && FailCode(code, message).data.None?
  {
  }

  /** The declared return type of a handler method, as `supports` sees it. */
  datatype ReturnType = ApiResponseType | ResponseEntityType | ObjectType

  /** `supports`: every return type except `ApiResponse`. */
  predicate Supports(returnType: ReturnType) {
    returnType != ApiResponseType
  }

  /** A body as the advice receives it. */
  datatype Body = NullBody | Envelope(response: ApiResponse) | Plain(payload: Payload)

  /** `beforeBodyWrite`: null and envelopes pass; anything else is wrapped
      as `success(OK, body)`. */
  function BeforeBodyWrite(body: Body): (r: Body)
    ensures body.Plain? ==> r == Envelope(SuccessWith(OK, body.payload))
    ensures !body.Plain? ==> r == body
  {
    match body
    case NullBody => body
    case Envelope(_) => body
    case Plain(payload) => Envelope(SuccessWith(OK, payload))
  }

  /** What reaches the client: the advice rewrites the body only when it
      supports the return type. */
  function Written(returnType: ReturnType, body: Body): (r: Body)
    ensures returnType == ApiResponseType ==> r == body
  {
    if Supports(returnType) then BeforeBodyWrite(body) else body
  }

  /** Wrapping is idempotent, its result is never a plain object unless it
      was left alone, and an envelope or null body always passes unchanged. */
  lemma WrapIdempotent(returnType: ReturnType, body: Body)
    ensures BeforeBodyWrite(BeforeBodyWrite(body)) == BeforeBodyWrite(body)
    ensures Written(returnType, Written(returnType, body)) == Written(returnType, body)
    ensures Supports(returnType) ==> !Written(returnType, body).Plain?
    ensures !body.Plain? ==> Written(returnType, body) == body
  {
  }
}
