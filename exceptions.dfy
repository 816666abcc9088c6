/**
 * The exceptions the services throw and the catch ladders test:
 * `ApiException` with its status-fixing subclasses and the four auth
 * exceptions, and the Java and Spring exceptions that reach the same
 * ladders. A thrown exception is a value; which `catch` clause takes it is
 * decided by the class it belongs to.
 */
module Exceptions {
  import opened Wrappers
  import opened ErrorCodes
  import Http

  /** The fields of an `ApiException`. */
  datatype ApiException = ApiException(status: Http.HttpStatus, errorCode: ErrorCode, message: string)

  /** `new ApiException(errorCode, status)`: the message is the code's own
      message, status and code are kept as given. */
  function NewApiException(errorCode: ErrorCode, status: Http.HttpStatus): (ex: ApiException)
    ensures ex.message == errorCode.Message()
    ensures ex.status == status && ex.errorCode == errorCode
  {
    ApiException(status, errorCode, errorCode.Message())
  }

  /** The concrete class of an `ApiException`. */
  datatype ApiClass =
    | PlainApi
    | BadRequestClass
    | NotFoundClass
    | ConflictClass
    | ForbiddenClass
    | ValidationClass(fieldErrors: map<string, string>)
    | InternalServerClass
    | EmailAlreadyExistsClass
    | InvalidProviderTypeClass
    | KakaoApiFailedClass
    | SocialAccountAlreadyLinkedClass

  /** One error of a failed `@Valid` binding: a field error, or an error of
      the object as a whole. */
  datatype BindingError = FieldError(field: string, message: string) | GlobalError(message: string)

  /** `getFieldErrors()`: the field errors of a binding, in order, as
      (field, message) entries. */
  function FieldEntries(errors: seq<BindingError>): (r: seq<(string, string)>)
    ensures |r| <= |errors|
  {
    if |errors| == 0 then []
    else
      var init := FieldEntries(errors[..|errors| - 1]);
      var last := errors[|errors| - 1];
      assert errors == errors[..|errors| - 1] + [last];
      if last.FieldError? then init + [(last.field, last.message)] else init
  }

  /** The entries are exactly the field errors. */
  lemma {:induction false} FieldEntriesMembers(errors: seq<BindingError>)
    ensures forall x :: x in FieldEntries(errors) <==> FieldError(x.0, x.1) in errors
    decreases |errors|
  {
    if |errors| > 0 {
      var n := |errors| - 1;
      FieldEntriesMembers(errors[..n]);
      assert errors == errors[..n] + [errors[n]];
    }
  }

  /** One violation of a `ConstraintViolationException`. */
  datatype Violation = Violation(path: string, message: string)

  /** A thrown exception, by the class the handlers test. */
  datatype Exception =
    | Api(cls: ApiClass, ex: ApiException)
    /** `IllegalArgumentException` and its subclasses. */
    | IllegalArgument(message: Option<string>)
    | IllegalState(message: Option<string>)
    /** `UsernameNotFoundException`, an `AuthenticationException`. */
    | UsernameNotFound(message: Option<string>)
    /** Any other `AuthenticationException`. */
    | Authentication(message: Option<string>)
    /** The database refused a row (a unique, not-null or length constraint). */
    | DataIntegrityViolation
    | NullPointer
    /** A `ClassCastException`. */
    | ClassCast
    /** Any other unchecked exception, such as the Kakao client's. */
    | Runtime(message: Option<string>)
    /** A checked exception. */
    | Checked(message: Option<string>)
    /** Spring MVC's binding and dispatch exceptions. */
    | MethodArgumentNotValid(errors: seq<BindingError>)
    | ConstraintViolation(violations: seq<Violation>)
    | NoResourceFound
    | MethodNotSupported
    | MessageNotReadable
    | MissingParameter(name: string)
  {
    /** Whether the class extends `RuntimeException`. */
    predicate IsRuntime() {
      !(Checked? || MethodArgumentNotValid? || NoResourceFound? || MethodNotSupported? || MissingParameter?)
    }

    /** Whether `catch (AuthenticationException e)` takes it. */
    predicate IsAuthentication() {
      UsernameNotFound? || Authentication?
    }

    /** `getMessage()`, where the core reads it. */
    function Message(): Option<string> {
      match this
      case Api(_, ex) => Some(ex.message)
      case IllegalArgument(m) => m
      case IllegalState(m) => m
      case UsernameNotFound(m) => m
      case Authentication(m) => m
      case Runtime(m) => m
      case Checked(m) => m
      case _ => None
    }
  }

  // The status-fixing subclasses.

  function BadRequestException(errorCode: ErrorCode): Exception {
    Api(BadRequestClass, NewApiException(errorCode, Http.BAD_REQUEST))
  }

  function NotFoundException(errorCode: ErrorCode): Exception {
    Api(NotFoundClass, NewApiException(errorCode, Http.NOT_FOUND))
  }

  function ConflictException(errorCode: ErrorCode): Exception {
    Api(ConflictClass, NewApiException(errorCode, Http.CONFLICT))
  }

  function ForbiddenException(errorCode: ErrorCode): Exception {
    Api(ForbiddenClass, NewApiException(errorCode, Http.FORBIDDEN))
  }

  function ValidationException(errorCode: ErrorCode, fieldErrors: map<string, string>): Exception {
    Api(ValidationClass(fieldErrors), NewApiException(errorCode, Http.BAD_REQUEST))
  }

  /** Both constructors of `InternalServerException`; the second one's
      message argument is accepted and dropped. */
  function InternalServerException(errorCode: ErrorCode, message: Option<string>): Exception {
    Api(InternalServerClass, NewApiException(errorCode, Http.INTERNAL_SERVER_ERROR))
  }

  /** A plain `ApiException` of the code's own status, as the controllers throw. */
  function ApiExceptionOf(code: ErrorCode): Exception {
    Api(PlainApi, NewApiException(code, code.Status()))
  }

  // The auth exceptions: each carries its code with that code's own status.

  function EmailAlreadyExistsException(): Exception {
    Api(EmailAlreadyExistsClass, NewApiException(Auth(EMAIL_ALREADY_EXISTS), EMAIL_ALREADY_EXISTS.Status()))
  }

  function InvalidProviderTypeException(): Exception {
    Api(InvalidProviderTypeClass, NewApiException(Auth(INVALID_PROVIDER_TYPE), INVALID_PROVIDER_TYPE.Status()))
  }

  function KakaoApiFailedException(): Exception {
    Api(KakaoApiFailedClass, NewApiException(Auth(KAKAO_API_FAILED), KAKAO_API_FAILED.Status()))
  }

  function SocialAccountAlreadyLinkedException(): Exception {
    Api(SocialAccountAlreadyLinkedClass, NewApiException(Auth(SOCIAL_ACCOUNT_ALREADY_LINKED), SOCIAL_ACCOUNT_ALREADY_LINKED.Status()))
  }

  /** An exception whose status is the one its code declares. */
  predicate StatusConsistent(e: Exception) {
    e.Api? && e.ex.status == e.ex.errorCode.Status() && e.ex.message == e.ex.errorCode.Message()
  }

  /** Each subclass fixes its status whatever code it is given: 400, 404,
      409, 403, 400 for a validation failure (which also keeps its field
      map), and 500 for an internal error, whose extra message is lost. */
  lemma SubclassStatuses(code: ErrorCode, fieldErrors: map<string, string>, m1: Option<string>, m2: Option<string>)
    ensures BadRequestException(code).ex.status.Value() == 400
    ensures NotFoundException(code).ex.status.Value() == 404
    ensures ConflictException(code).ex.status.Value() == 409
    ensures ForbiddenException(code).ex.status.Value() == 403
    ensures ValidationException(code, fieldErrors).ex.status.Value() == 400
    ensures ValidationException(code, fieldErrors).cls.fieldErrors == fieldErrors
    ensures InternalServerException(code, m1).ex.status.Value() == 500
    ensures InternalServerException(code, m1) == InternalServerException(code, m2)
  {
  }

  /** The four auth exceptions and every controller-built `ApiException`
      are status-consistent, and their codes are the auth table's. */
  lemma AuthExceptionsConsistent(code: ErrorCode)
    ensures StatusConsistent(EmailAlreadyExistsException()) && EmailAlreadyExistsException().ex.status.Value() == 409
    ensures StatusConsistent(SocialAccountAlreadyLinkedException()) && SocialAccountAlreadyLinkedException().ex.status.Value() == 409
    ensures StatusConsistent(InvalidProviderTypeException()) && InvalidProviderTypeException().ex.status.Value() == 400
    ensures StatusConsistent(KakaoApiFailedException()) && KakaoApiFailedException().ex.status.Value() == 500
    ensures StatusConsistent(ApiExceptionOf(code))
  {
  }
}
