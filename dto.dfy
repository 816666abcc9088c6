/**
 * The request and response records of the auth and setting endpoints, with
 * their bean-validation constraints as predicates, and the Kakao user-info
 * record with its null-safe getters.
 */
module Dto {
  import opened Wrappers
  import opened JavaLang

  /** `SignUpRequestDto`; every field may be null. */
  datatype SignUpRequest = SignUpRequest(
    name: Option<string>,
    email: Option<string>,
    password: Option<string>,
    providerId: Option<string>,
    providerType: Option<string>)

  /** The constraints `@Valid` checks on a sign-up request. `isEmail` is
      the `@Email` format check. The provider fields are unconstrained, and
      the password is required even for a social sign-up. */
  predicate ValidSignUp(dto: SignUpRequest, isEmail: string -> bool) {
    && NotBlank(dto.name) && 2 <= |dto.name.value| <= 30
    && NotBlank(dto.email) && isEmail(dto.email.value) && |dto.email.value| <= 50
    && NotBlank(dto.password) && |dto.password.value| >= 4
  }

  /** The provider fields take no part in validation, while a missing
      password fails it whatever the provider fields hold. */
  lemma ProviderFieldsUnconstrained(dto: SignUpRequest, isEmail: string -> bool,
                                    providerId: Option<string>, providerType: Option<string>)
    ensures ValidSignUp(dto, isEmail) <==>
            ValidSignUp(dto.(providerId := providerId, providerType := providerType), isEmail)
    ensures !ValidSignUp(dto.(password := None, providerId := providerId, providerType := providerType), isEmail)
  {
  }

  /** `BudgetRequestDto`. */
  datatype BudgetRequest = BudgetRequest(amount: Option<Long>)

  /** `@NotNull @Min(1)`: zero is refused here, before the service. */
  predicate ValidBudget(dto: BudgetRequest) {
    dto.amount.Some? && dto.amount.value >= 1
  }

  /** `KakaoLoginRequestDto`. */
  datatype KakaoLoginRequest = KakaoLoginRequest(accessToken: Option<string>)

  predicate ValidKakaoLogin(dto: KakaoLoginRequest) {
    NotBlank(dto.accessToken)
  }

  /** The login request: an email and a password. */
  datatype LoginRequest = LoginRequest(email: Option<string>, password: Option<string>)

  /** `KakaoUserInfoResponseDto` and its nested records. */
  datatype Profile = Profile(nickname: Option<string>)

  datatype KakaoAccount = KakaoAccount(email: Option<string>, profile: Option<Profile>)

  datatype KakaoUserInfo = KakaoUserInfo(id: Option<Long>, kakaoAccount: Option<KakaoAccount>)
  {
    /** `getEmail`: null when there is no account. */
    function GetEmail(): Option<string> {
      if kakaoAccount.Some? then kakaoAccount.value.email else None
    }

    /** `getNickname`: null when there is no account or no profile. */
    function GetNickname(): Option<string> {
      if kakaoAccount.Some? && kakaoAccount.value.profile.Some? then kakaoAccount.value.profile.value.nickname else None
    }
  }

  /** The getters never dereference a missing record: each answers with
      the nested field exactly when every record on the way is present. */
  lemma GettersNullSafe(info: KakaoUserInfo, e: string, n: string)
    ensures info.GetEmail() == Some(e) <==>
              exists p :: info.kakaoAccount == Some(KakaoAccount(Some(e), p))
    ensures info.GetNickname() == Some(n) <==>
              exists e' :: info.kakaoAccount == Some(KakaoAccount(e', Some(Profile(Some(n)))))
  {
    if info.GetEmail() == Some(e) {
      assert info.kakaoAccount == Some(KakaoAccount(Some(e), info.kakaoAccount.value.profile));
    }
    if info.GetNickname() == Some(n) {
      var a := info.kakaoAccount.value;
      assert info.kakaoAccount == Some(KakaoAccount(a.email, Some(Profile(Some(n)))));
    }
  }

  /** `LoginResponseDto`. */
  datatype LoginResponse = LoginResponse(
    accessToken: string,
    userId: Option<int>,
    name: Option<string>,
    email: Option<string>,
    budgetSet: bool)

  /** `SignUpRequiredResponseDto`. */
  datatype SignUpRequiredResponse = SignUpRequiredResponse(
    providerType: string,
    providerId: string,
    email: Option<string>)
}
