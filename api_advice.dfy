/**
 * The exception handlers that answer with an `ApiResponse` envelope. A
 * handler either returns an envelope or throws a new exception; Spring
 * picks the handler declared for the closest superclass of the exception.
 */
module ApiAdvice {
  import opened Wrappers
  import opened ErrorCodes
  import opened Exceptions
  import opened HashMaps
  import opened ApiResponses
  import Http

  /** What a handler does: answer, or throw. */
  datatype HandlerOutcome = Respond(response: ApiResponse) | Throw(thrown: Exception)

  /** The index of the last '.' of `path`, or -1 when it has none
      (`lastIndexOf(".")`). */
  function LastDot(path: string): (i: int)
    ensures -1 <= i < |path|
    ensures i >= 0 ==> path[i] == '.'
    ensures forall j :: i < j < |path| ==> path[j] != '.'
  {
    if |path| == 0 then -1
    else if path[|path| - 1] == '.' then |path| - 1
    else LastDot(path[..|path| - 1])
  }

  /** The field a violation's property path names: the part after the last
      '.', or the whole path when it has none. The result holds no '.', and
      it is the whole path exactly when the path holds none. */
  function FieldName(path: string): (r: string)
    ensures '.' !in r
    ensures |r| <= |path| && r == path[|path| - |r|..]
    ensures r == path <==> '.' !in path
    ensures '.' in path ==> path[|path| - |r| - 1] == '.'
  {
    var i := LastDot(path);
    if '.' in path then
      assert i >= 0 by {
        var k :| 0 <= k < |path| && path[k] == '.';
      }
      path[i + 1..]
    else path
  }

  /** The (field, message) entries of a `ConstraintViolationException`. */
  function ViolationEntries(violations: seq<Violation>): (r: seq<(string, string)>)
    ensures |r| == |violations|
    ensures forall i :: 0 <= i < |r| ==> r[i] == (FieldName(violations[i].path), violations[i].message)
  {
    seq(|violations|, i requires 0 <= i < |violations| => (FieldName(violations[i].path), violations[i].message))
  }

  /** `handleSpringValidation`: the field errors alone are put into a new
      map in order, and a `ValidationException(VALIDATION_FAILED)` carrying
      it is thrown. */
  method SpringValidation(errors: seq<BindingError>) returns (thrown: Exception)
    ensures thrown == ValidationException(Common(VALIDATION_FAILED), Puts(FieldEntries(errors)))
  {
    var entries := FieldEntries(errors);
    var fieldErrors := PutAll(entries);
    thrown := ValidationException(Common(VALIDATION_FAILED), fieldErrors);
  }

  /** `handleConstraintViolation`: each violation's field name and message
      is put into a new map in order, and a `ValidationException` is thrown. */
  method ConstraintViolations(violations: seq<Violation>) returns (thrown: Exception)
    ensures thrown == ValidationException(Common(VALIDATION_FAILED), Puts(ViolationEntries(violations)))
  {
    var fieldErrors: map<string, string> := map[];
    var i := 0;
    while i < |violations|
      invariant 0 <= i <= |violations|
      invariant fieldErrors == Puts(ViolationEntries(violations)[..i])
    {
      var path := violations[i].path;
      var field := if '.' in path then path[LastDot(path) + 1..] else path;
      assert ViolationEntries(violations)[..i + 1][..i] == ViolationEntries(violations)[..i];
      fieldErrors := fieldErrors[field := violations[i].message];
      i := i + 1;
    }
    assert ViolationEntries(violations)[..i] == ViolationEntries(violations);
    thrown := ValidationException(Common(VALIDATION_FAILED), fieldErrors);
  }

  /** `handleApiException`: the code and message of the error code only,
      in a 500 envelope. */
  function HandleApiException(ex: ApiException): ApiResponse {
    FailCode(ex.errorCode.Code(), ex.errorCode.Message())
  }

  /** `handleValidationException`: the exception's status, its code's code
      and message, and the field map as data. */
  function HandleValidationException(ex: ApiException, fieldErrors: map<string, string>): ApiResponse {
    FailWith(ex, ex.errorCode, StringMap(Present(fieldErrors)))
  }

  /** `handleUncaught`: the internal-error code and message, nothing of the
      exception itself. */
  function HandleUncaught(): ApiResponse {
    FailCode(INTERNAL_SERVER_ERROR.Code(), INTERNAL_SERVER_ERROR.Message())
  }

  /** Whether `e` belongs to a class one of the specific handlers is
      declared for. */
  predicate HasSpecificHandler(e: Exception) {
    e.Api? || e.MethodArgumentNotValid? || e.ConstraintViolation? || e.NoResourceFound? ||
    e.MethodNotSupported? || e.MessageNotReadable? || e.MissingParameter?
  }

  /** The handler Spring picks for `e` (the one declared for its closest
      superclass), and what it does. */
  function Resolve(e: Exception): HandlerOutcome {
    match e
    case Api(cls, ex) =>
      if cls.ValidationClass? then Respond(HandleValidationException(ex, cls.fieldErrors))
      else Respond(HandleApiException(ex))
    case MethodArgumentNotValid(errors) =>
      Throw(ValidationException(Common(VALIDATION_FAILED), Puts(FieldEntries(errors))))
    case ConstraintViolation(violations) =>
      Throw(ValidationException(Common(VALIDATION_FAILED), Puts(ViolationEntries(violations))))
    case NoResourceFound => Throw(Api(PlainApi, NewApiException(Common(RESOURCE_NOT_FOUND), Http.NOT_FOUND)))
    case MethodNotSupported => Throw(Api(PlainApi, NewApiException(Common(RESOURCE_NOT_FOUND), Http.NOT_FOUND)))
    case MessageNotReadable => Throw(Api(PlainApi, NewApiException(Common(ILLEGAL_ARGUMENT), Http.BAD_REQUEST)))
    case MissingParameter(name) => Throw(ValidationException(Common(VALIDATION_FAILED), map[name := MISSING_PARAMETER]))
    case _ => Respond(HandleUncaught())
  }

  /** The handlers, with the validation maps filled entry by entry. */
  method Handle(e: Exception) returns (out: HandlerOutcome)
    ensures out == Resolve(e)
  {
    match e {
      case Api(cls, ex) =>
        if cls.ValidationClass? {
          return Respond(HandleValidationException(ex, cls.fieldErrors));
        }
        return Respond(HandleApiException(ex));
      case MethodArgumentNotValid(errors) =>
        var thrown := SpringValidation(errors);
        return Throw(thrown);
      case ConstraintViolation(violations) =>
        var thrown := ConstraintViolations(violations);
        return Throw(thrown);
      case NoResourceFound =>
        return Throw(Api(PlainApi, NewApiException(Common(RESOURCE_NOT_FOUND), Http.NOT_FOUND)));
      case MethodNotSupported =>
        return Throw(Api(PlainApi, NewApiException(Common(RESOURCE_NOT_FOUND), Http.NOT_FOUND)));
      case MessageNotReadable =>
        return Throw(Api(PlainApi, NewApiException(Common(ILLEGAL_ARGUMENT), Http.BAD_REQUEST)));
      case MissingParameter(name) =>
        var fieldErrors: map<string, string> := map[];
        fieldErrors := fieldErrors[name := MISSING_PARAMETER];
        return Throw(ValidationException(Common(VALIDATION_FAILED), fieldErrors));
      case _ =>
        return Respond(HandleUncaught());
    }
  }

  /** The message put for a missing request parameter. */
  const MISSING_PARAMETER := "필수 파라미터입니다."

  /** A `Map<String, String>` whose values are all present. */
  function Present(m: map<string, string>): (r: map<string, Option<string>>)
    ensures r.Keys == m.Keys && forall k :: k in m ==> r[k] == Some(m[k])
  {
    map k | k in m :: Some(m[k])
  }

  /** The Spring-validation map has a key exactly for each field with a
      field error; errors of the object as a whole add none. */
  lemma ValidationFields(errors: seq<BindingError>, field: string)
    ensures field in Puts(FieldEntries(errors)) <==> exists m :: FieldError(field, m) in errors
  {
    PutsLastWriteWins(FieldEntries(errors));
    FieldEntriesMembers(errors);
    if field in Puts(FieldEntries(errors)) {
      var i :| 0 <= i < |FieldEntries(errors)| && FieldEntries(errors)[i].0 == field;
      assert FieldEntries(errors)[i] in FieldEntries(errors);
      assert FieldError(field, FieldEntries(errors)[i].1) in errors;
    }
    if m :| FieldError(field, m) in errors {
      assert (field, m) in FieldEntries(errors);
      var i :| 0 <= i < |FieldEntries(errors)| && FieldEntries(errors)[i] == (field, m);
      assert FieldEntries(errors)[i].0 == field;
    }
  }

  /** A violation's key is its field name; violations of two paths that end
      in the same field name land on one key, the later message winning. */
  lemma ViolationFields(violations: seq<Violation>, i: int)
    requires 0 <= i < |violations|
    ensures FieldName(violations[i].path) in Puts(ViolationEntries(violations))
    ensures (forall j :: i < j < |violations| ==> FieldName(violations[j].path) != FieldName(violations[i].path)) ==>
              Puts(ViolationEntries(violations))[FieldName(violations[i].path)] == violations[i].message
  {
    var entries := ViolationEntries(violations);
    PutsLastWriteWins(entries);
    assert entries[i].0 == FieldName(violations[i].path);
    if forall j :: i < j < |violations| ==> FieldName(violations[j].path) != FieldName(violations[i].path) {
      assert LastFor(entries, i);
    }
  }

  /** Whatever status an `ApiException` carries, the envelope its handler
      returns reports 500, with the code and message of its error code; a
      `ValidationException` keeps its own status and its fields. */
  lemma ApiExceptionsReport500(e: Exception)
    requires e.Api?
    ensures Resolve(e).Respond?
    ensures !e.cls.ValidationClass? ==> Resolve(e).response.status == 500
    ensures Resolve(e).response.code == e.ex.errorCode.Code() && Resolve(e).response.message == e.ex.errorCode.Message()
    ensures e.cls.ValidationClass? ==>
              Resolve(e).response.status == e.ex.status.Value() &&
              Resolve(e).response.data == Some(StringMap(Present(e.cls.fieldErrors)))
  {
  }

  /** Every exception without a specific handler gets the same envelope:
      nothing of the exception reaches the body. */
  lemma UncaughtLeaksNothing(e1: Exception, e2: Exception)
    requires !HasSpecificHandler(e1) && !HasSpecificHandler(e2)
    ensures Resolve(e1) == Resolve(e2) == Respond(FailCode("BERC-500", "서버 내부 오류가 발생했습니다."))
  {
  }

  /** The dispatch exceptions become `ApiException`s of the right status:
      404 for an unknown resource or method, 400 for an unreadable body,
      and a one-entry field map for a missing parameter. */
  lemma DispatchErrorsRethrown(e: Exception)
    requires e.NoResourceFound? || e.MethodNotSupported? || e.MessageNotReadable? || e.MissingParameter?
    ensures Resolve(e).Throw? && Resolve(e).thrown.Api?
    ensures Resolve(e).thrown.ex.status.Value() == (if e.MessageNotReadable? || e.MissingParameter? then 400 else 404)
    ensures e.MissingParameter? ==> Resolve(e).thrown.cls.fieldErrors.Keys == {e.name}
  {
  }
}
