/**
 * The catch ladders of `AuthController`: each endpoint turns the service's
 * answer into an `ApiResponse` envelope, or the exception it threw into the
 * exception the endpoint throws. The first `catch` whose class matches
 * wins. Request binding and `@Valid` happen before these ladders run.
 */
module AuthController {
  import opened Wrappers
  import opened JavaLang
  import opened ErrorCodes
  import opened Exceptions
  import opened Dto
  import opened Entities
  import opened ApiResponses
  import AuthFlow
  import ApiAdvice

  /** Whether `e` is an `ApiException` of class `cls`. */
  predicate IsA(e: Exception, cls: ApiClass) {
    e.Api? && e.cls == cls
  }

  /** `kakaoLoginOrRegister`: either answer wrapped with `OK`; an API
      failure and a taken email keep their auth codes, anything else
      becomes an internal error. */
  function KakaoLoginOrRegister(result: Result<AuthFlow.KakaoOutcome, Exception>): Result<ApiResponse, Exception> {
    match result
    case Ok(outcome) =>
      if outcome.LoggedIn? then Ok(SuccessWith(OK, LoginData(outcome.login)))
      else Ok(SuccessWith(OK, SignUpRequiredData(outcome.required)))
    case Err(e) =>
      if IsA(e, KakaoApiFailedClass) then Err(ApiExceptionOf(Auth(KAKAO_API_FAILED)))
      else if IsA(e, EmailAlreadyExistsClass) then Err(ApiExceptionOf(Auth(EMAIL_ALREADY_EXISTS)))
      else Err(ApiExceptionOf(Common(INTERNAL_SERVER_ERROR)))
  }

  /** `signUp`: success wrapped with `CREATED`; the three auth exceptions
      keep their codes, a bad request is rethrown as it is, anything else
      becomes an internal error. */
  function SignUp(result: Result<LoginResponse, Exception>): Result<ApiResponse, Exception> {
    match result
    case Ok(login) => Ok(SuccessWith(CREATED, LoginData(login)))
    case Err(e) =>
      if IsA(e, EmailAlreadyExistsClass) then Err(ApiExceptionOf(Auth(EMAIL_ALREADY_EXISTS)))
      else if IsA(e, InvalidProviderTypeClass) then Err(ApiExceptionOf(Auth(INVALID_PROVIDER_TYPE)))
      else if IsA(e, SocialAccountAlreadyLinkedClass) then Err(ApiExceptionOf(Auth(SOCIAL_ACCOUNT_ALREADY_LINKED)))
      else if IsA(e, BadRequestClass) then Err(e)
      else Err(ApiExceptionOf(Common(INTERNAL_SERVER_ERROR)))
  }

  /** `login`: success wrapped with `OK`; an authentication failure is
      unauthorized, anything else an internal error. */
  function Login(result: Result<LoginResponse, Exception>): Result<ApiResponse, Exception> {
    match result
    case Ok(login) => Ok(SuccessWith(OK, LoginData(login)))
    case Err(e) =>
      if e.IsAuthentication() then Err(ApiExceptionOf(Common(UNAUTHORIZED)))
      else Err(ApiExceptionOf(Common(INTERNAL_SERVER_ERROR)))
  }

  /** The test endpoint that trades an authorization code for a Kakao
      token. `fetchToken` is the token request: the token (null when the
      reply has none) or the exception it throws. A null token makes
      `Map.of` throw a `NullPointerException`, caught as a runtime failure. */
  function KakaoTokenForTest(code: Option<string>, fetchToken: string -> Result<Option<string>, Exception>): Result<ApiResponse, Exception> {
    if code.None? || |Trim(code.value)| == 0 then Err(ApiExceptionOf(Common(ILLEGAL_ARGUMENT)))
    else match fetchToken(code.value)
      case Ok(Some(token)) => Ok(SuccessWith(OK, StringMap(map["kakao_access_token" := Some(token)])))
      case Ok(None) => Err(ApiExceptionOf(Auth(KAKAO_API_FAILED)))
      case Err(e) =>
        if e.IsRuntime() then Err(ApiExceptionOf(Auth(KAKAO_API_FAILED)))
        else Err(ApiExceptionOf(Common(INTERNAL_SERVER_ERROR)))
  }

  /** The ladders fail exactly when the service failed, and every exception
      they build carries its code with that code's own status; the only
      other one is the bad request `signUp` passes through untouched. */
  lemma LaddersKeepStatusConsistent(kakao: Result<AuthFlow.KakaoOutcome, Exception>,
                                    signUp: Result<LoginResponse, Exception>,
                                    login: Result<LoginResponse, Exception>)
    ensures KakaoLoginOrRegister(kakao).Err? <==> kakao.Err?
    ensures SignUp(signUp).Err? <==> signUp.Err?
    ensures Login(login).Err? <==> login.Err?
    ensures kakao.Err? ==> StatusConsistent(KakaoLoginOrRegister(kakao).error)
    ensures login.Err? ==> StatusConsistent(Login(login).error)
    ensures signUp.Err? && !IsA(signUp.error, BadRequestClass) ==> StatusConsistent(SignUp(signUp).error)
    ensures signUp.Err? && IsA(signUp.error, BadRequestClass) ==> SignUp(signUp) == Err(signUp.error)
  {
    if kakao.Err? {
      AuthExceptionsConsistent(Auth(KAKAO_API_FAILED));
      AuthExceptionsConsistent(Auth(EMAIL_ALREADY_EXISTS));
      AuthExceptionsConsistent(Common(INTERNAL_SERVER_ERROR));
    }
  }

  /** End to end through the service: a failed call to Kakao surfaces as an
      internal error, while a reply without a profile or an id surfaces as
      the Kakao API failure; a linked id answers `OK` with its login. */
  lemma KakaoLoginAnswers(s: AuthFlow.Store, p: AuthFlow.Platform, dto: KakaoLoginRequest)
    requires AuthFlow.Valid(s)
    ensures var reply := p.kakaoUserInfo(dto.accessToken);
            var r := KakaoLoginOrRegister(AuthFlow.KakaoLoginOrRegister(s, p, dto));
            && (reply.CallFailed? ==> r == Err(ApiExceptionOf(Common(INTERNAL_SERVER_ERROR))))
            && (reply.Fetched? && (reply.body.None? || reply.body.value.id.None?) ==>
                  r == Err(ApiExceptionOf(Auth(KAKAO_API_FAILED))))
            && (r.Ok? ==> r.value.status == 200 && r.value.code == "BERC-200" && r.value.data.Some?)
  {
    AuthFlow.KakaoLoginFailures(s, p, dto);
  }

  /** End to end through the service: every failure of the sign-up
      endpoint is an `ApiException` of status 400, 409 or 500 whose status
      is its code's own, and success answers 201. */
  lemma SignUpAnswers(s: AuthFlow.Store, p: AuthFlow.Platform, dto: SignUpRequest)
    ensures var r := SignUp(AuthFlow.SignUp(s, p, dto).0);
            && (r.Err? ==> StatusConsistent(r.error) && r.error.ex.status.Value() in {400, 409, 500})
            && (r.Ok? ==> r.value.status == 201 && r.value.code == "BERC-201")
  {
    AuthFlow.SignUpErrors(s, p, dto);
    var r := AuthFlow.SignUp(s, p, dto).0;
    if r.Err? {
      AuthExceptionsConsistent(Auth(EMAIL_ALREADY_EXISTS));
      AuthExceptionsConsistent(Auth(INVALID_PROVIDER_TYPE));
      AuthExceptionsConsistent(Auth(SOCIAL_ACCOUNT_ALREADY_LINKED));
      AuthExceptionsConsistent(Common(INTERNAL_SERVER_ERROR));
    }
  }

  /** The Kakao id "007" against a linked "7": the service's constraint
      violation reaches the client as an internal error, not as an
      already-linked account. */
  lemma CollidingKakaoIdIsInternalError(s: AuthFlow.Store, p: AuthFlow.Platform, dto: SignUpRequest, owner: int)
    requires AuthFlow.ReachesLadder(s, dto)
    requires dto.providerType == Some("kakao") && dto.providerId == Some("007")
    requires SocialConnection(Some(owner), KAKAO, "7") in s.connections
    requires forall d :: d in s.connections ==> d.providerId != "007"
    ensures SignUp(AuthFlow.SignUp(s, p, dto).0) == Err(ApiExceptionOf(Common(INTERNAL_SERVER_ERROR)))
  {
    AuthFlow.RawIdCheckMissesCollision(s, p, dto, owner);
  }

  /** A taken email reaches the client, through the `ApiResponse` advice,
      as an envelope with the conflict code but status 500. */
  lemma TakenEmailEnvelope(s: AuthFlow.Store, p: AuthFlow.Platform, dto: SignUpRequest)
    requires AuthFlow.ExistsByEmail(s, dto.email)
    ensures SignUp(AuthFlow.SignUp(s, p, dto).0).Err?
    ensures ApiAdvice.Resolve(SignUp(AuthFlow.SignUp(s, p, dto).0).error) ==
            ApiAdvice.Respond(ApiResponse(500, "AUTH409_1", "이미 등록된 이메일입니다.", None))
  {
  }

  /** `login` never throws an `AuthenticationException`, so the endpoint
      never answers unauthorized: an unknown email is an internal error. */
  lemma LoginNeverUnauthorized(s: AuthFlow.Store, p: AuthFlow.Platform, dto: LoginRequest)
    requires AuthFlow.Valid(s)
    ensures Login(AuthFlow.Login(s, p, dto)) != Err(ApiExceptionOf(Common(UNAUTHORIZED)))
    ensures !AuthFlow.ExistsByEmail(s, dto.email) ==>
              Login(AuthFlow.Login(s, p, dto)) == Err(ApiExceptionOf(Common(INTERNAL_SERVER_ERROR)))
  {
    AuthFlow.LoginOutcome(s, p, dto);
  }

  /** A missing or blank code is refused before any call, whatever the
      call would have done; a token is returned under one fixed key. */
  lemma BlankCodeRefusedFirst(code: Option<string>, f: string -> Result<Option<string>, Exception>,
                              g: string -> Result<Option<string>, Exception>)
    ensures code.None? || (forall i :: 0 <= i < |code.value| ==> code.value[i] <= ' ') ==>
              KakaoTokenForTest(code, f) == KakaoTokenForTest(code, g) == Err(ApiExceptionOf(Common(ILLEGAL_ARGUMENT)))
    ensures KakaoTokenForTest(code, f).Ok? ==>
              KakaoTokenForTest(code, f).value.data.value.StringMap? &&
              KakaoTokenForTest(code, f).value.data.value.entries.Keys == {"kakao_access_token"}
  {
    if code.Some? {
      TrimEmptyIffAllControl(code.value);
    }
  }
}
