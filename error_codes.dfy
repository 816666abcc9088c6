/** Spring's `HttpStatus`, restricted to the constants the core uses. */
module Http {

  datatype HttpStatus =
    | OK | CREATED | NO_CONTENT
    | BAD_REQUEST | UNAUTHORIZED | FORBIDDEN | NOT_FOUND | CONFLICT
    | INTERNAL_SERVER_ERROR
  {
    /** `HttpStatus.value()`. */
    function Value(): int {
      match this
      case OK => 200
      case CREATED => 201
      case NO_CONTENT => 204
      case BAD_REQUEST => 400
      case UNAUTHORIZED => 401
      case FORBIDDEN => 403
      case NOT_FOUND => 404
      case CONFLICT => 409
      case INTERNAL_SERVER_ERROR => 500
    }
  }
}

/**
 * The status tables: `AuthErrorCode`, `CommonErrorCode`,
 * `CommonSuccessCode`, and the `ErrorCode` interface they share.
 */
module ErrorCodes {
  import opened JavaLang
  import Http

  /** The authentication error table. */
  datatype AuthErrorCode =
    | INVALID_KAKAO_TOKEN
    | KAKAO_USER_INFO_FAILED
    | INVALID_PROVIDER_TYPE
    | KAKAO_AUTHENTICATION_FAILED
    | EMAIL_ALREADY_EXISTS
    | SOCIAL_ACCOUNT_ALREADY_LINKED
    | KAKAO_API_FAILED
  {
    function Status(): Http.HttpStatus {
      match this
      case INVALID_KAKAO_TOKEN => Http.BAD_REQUEST
      case KAKAO_USER_INFO_FAILED => Http.BAD_REQUEST
      case INVALID_PROVIDER_TYPE => Http.BAD_REQUEST
      case KAKAO_AUTHENTICATION_FAILED => Http.UNAUTHORIZED
      case EMAIL_ALREADY_EXISTS => Http.CONFLICT
      case SOCIAL_ACCOUNT_ALREADY_LINKED => Http.CONFLICT
      case KAKAO_API_FAILED => Http.INTERNAL_SERVER_ERROR
    }

    function Code(): string {
      match this
      case INVALID_KAKAO_TOKEN => "AUTH400_1"
      case KAKAO_USER_INFO_FAILED => "AUTH400_2"
      case INVALID_PROVIDER_TYPE => "AUTH400_3"
      case KAKAO_AUTHENTICATION_FAILED => "AUTH401_1"
      case EMAIL_ALREADY_EXISTS => "AUTH409_1"
      case SOCIAL_ACCOUNT_ALREADY_LINKED => "AUTH409_2"
      case KAKAO_API_FAILED => "AUTH500_1"
    }

    function Message(): string {
      match this
      case INVALID_KAKAO_TOKEN => "유효하지 않은 카카오 토큰입니다."
      case KAKAO_USER_INFO_FAILED => "카카오 사용자 정보를 가져오는데 실패했습니다."
      case INVALID_PROVIDER_TYPE => "지원하지 않는 소셜 로그인 타입입니다."
      case KAKAO_AUTHENTICATION_FAILED => "카카오 인증에 실패했습니다."
      case EMAIL_ALREADY_EXISTS => "이미 등록된 이메일입니다."
      case SOCIAL_ACCOUNT_ALREADY_LINKED => "이미 연동된 소셜 계정입니다."
      case KAKAO_API_FAILED => "카카오 API 연동에 실패했습니다."
    }
  }

  /** The common error table. Its codes repeat: every constant of one
      status shares that status's code. */
  datatype CommonErrorCode =
    | VALIDATION_FAILED
    | ILLEGAL_ARGUMENT
    | UNAUTHORIZED
    | INVALID_TOKEN
    | FORBIDDEN
    | RESOURCE_NOT_FOUND
    | USER_NOT_FOUND
    | ILLEGAL_STATE
    | DUPLICATE_RESOURCE
    | INTERNAL_SERVER_ERROR
  {
    function Status(): Http.HttpStatus {
      match this
      case VALIDATION_FAILED => Http.BAD_REQUEST
      case ILLEGAL_ARGUMENT => Http.BAD_REQUEST
      case UNAUTHORIZED => Http.UNAUTHORIZED
      case INVALID_TOKEN => Http.UNAUTHORIZED
      case FORBIDDEN => Http.FORBIDDEN
      case RESOURCE_NOT_FOUND => Http.NOT_FOUND
      case USER_NOT_FOUND => Http.NOT_FOUND
      case ILLEGAL_STATE => Http.CONFLICT
      case DUPLICATE_RESOURCE => Http.CONFLICT
      case INTERNAL_SERVER_ERROR => Http.INTERNAL_SERVER_ERROR
    }

    function Code(): string {
      match this
      case VALIDATION_FAILED => "BERC-400"
      case ILLEGAL_ARGUMENT => "BERC-400"
      case UNAUTHORIZED => "BERC-401"
      case INVALID_TOKEN => "BERC-401"
      case FORBIDDEN => "BERC-403"
      case RESOURCE_NOT_FOUND => "BERC-404"
      case USER_NOT_FOUND => "BERC-404"
      case ILLEGAL_STATE => "BERC-409"
      case DUPLICATE_RESOURCE => "BERC-409"
      case INTERNAL_SERVER_ERROR => "BERC-500"
    }

    function Message(): string {
      match this
      case VALIDATION_FAILED => "입력값 유효성 검사에 실패했습니다."
      case ILLEGAL_ARGUMENT => "잘못된 인수가 전달되었습니다."
      case UNAUTHORIZED => "인증이 필요합니다."
      case INVALID_TOKEN => "유효하지 않은 토큰입니다."
      case FORBIDDEN => "접근 권한이 없습니다."
      case RESOURCE_NOT_FOUND => "요청한 리소스를 찾을 수 없습니다."
      case USER_NOT_FOUND => "사용자를 찾을 수 없습니다."
      case ILLEGAL_STATE => "요청을 처리할 수 없는 상태입니다."
      case DUPLICATE_RESOURCE => "이미 존재하는 리소스입니다."
      case INTERNAL_SERVER_ERROR => "서버 내부 오류가 발생했습니다."
    }
  }

  /** The success table used to wrap responses. */
  datatype CommonSuccessCode = OK | CREATED | NO_CONTENT
  {
    function Status(): Http.HttpStatus {
      match this
      case OK => Http.OK
      case CREATED => Http.CREATED
      case NO_CONTENT => Http.NO_CONTENT
    }

    function Code(): string {
      match this
      case OK => "BERC-200"
      case CREATED => "BERC-201"
      case NO_CONTENT => "BERC-204"
    }

    function Message(): string {
      match this
      case OK => "요청이 성공했습니다."
      case CREATED => "요청이 성공했습니다."
      case NO_CONTENT => "요청이 성공했습니다"
    }
  }

  /**
   * The `ErrorCode` interface: any constant of either error table, plus the
   * budget error that `SettingService` names. That name is not a constant
   * of `CommonErrorCode`, so its status is taken as 400 (the exception it is
   * thrown with is a bad request), its code as the table's 400 code, and its
   * message as empty.
   */
  datatype ErrorCode =
    | Auth(auth: AuthErrorCode)
    | Common(common: CommonErrorCode)
    | BudgetCannotBeNegative
  {
    function Status(): Http.HttpStatus {
      match this
      case Auth(a) => a.Status()
      case Common(c) => c.Status()
      case BudgetCannotBeNegative => Http.BAD_REQUEST
    }

    function Code(): string {
      match this
      case Auth(a) => a.Code()
      case Common(c) => c.Code()
      case BudgetCannotBeNegative => "BERC-400"
    }

    function Message(): string {
      match this
      case Auth(a) => a.Message()
      case Common(c) => c.Message()
      case BudgetCannotBeNegative => ""
    }
  }

  /** The rendering of a three-digit status value. */
  lemma StatusDigits(s: Http.HttpStatus)
    ensures NatToString(s.Value()) == [DigitChar(s.Value() / 100), DigitChar(s.Value() / 10 % 10), DigitChar(s.Value() % 10)]
  {
    var n := s.Value();
    assert NatToString(n / 10) == NatToString(n / 100) + [DigitChar(n / 10 % 10)];
  }

  /** Every auth code is "AUTH", its status value, '_' and a serial digit. */
  lemma AuthCodeMatchesStatus(a: AuthErrorCode)
    ensures |a.Code()| == 9
    ensures a.Code()[..7] == "AUTH" + NatToString(a.Status().Value())
    ensures a.Code()[7] == '_' && '1' <= a.Code()[8] <= '9'
  {
    StatusDigits(a.Status());
  }

  /** No two auth constants share a code. */
  lemma AuthCodesDistinct(a: AuthErrorCode, b: AuthErrorCode)
    requires a.Code() == b.Code()
    ensures a == b
  {
  }

  /** Every common error code is "BERC-" followed by its status value. */
  lemma CommonCodeIsStatus(c: CommonErrorCode)
    ensures c.Code() == "BERC-" + NatToString(c.Status().Value())
  {
    StatusDigits(c.Status());
  }

  /** Common codes are not unique: they identify the status only. */
  lemma CommonCodesShared()
    ensures VALIDATION_FAILED.Code() == ILLEGAL_ARGUMENT.Code()
    ensures forall c: CommonErrorCode, d: CommonErrorCode :: c.Code() == d.Code() <==> c.Status() == d.Status()
  {
    forall c: CommonErrorCode, d: CommonErrorCode ensures c.Code() == d.Code() <==> c.Status() == d.Status() {
      CommonCodeIsStatus(c);
      CommonCodeIsStatus(d);
      if c.Code() == d.Code() {
        assert c.Code()[5..] == NatToString(c.Status().Value());
        assert d.Code()[5..] == NatToString(d.Status().Value());
      }
    }
  }

  /** Every success code is "BERC-" followed by its status value. */
  lemma SuccessCodeIsStatus(s: CommonSuccessCode)
    ensures s.Code() == "BERC-" + NatToString(s.Status().Value())
    ensures s.Status().Value() == match s case OK => 200 case CREATED => 201 case NO_CONTENT => 204
  {
    StatusDigits(s.Status());
  }
}
