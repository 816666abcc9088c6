# Be-Rich-BE authentication and account linking, in Dafny

This project models the authentication core of the Be-Rich-BE Spring backend.

- **Accounts.** It covers self sign-up, Kakao login or registration, login, budget setting and the member-backed `UserDetailsService`.
- **Tables.** These operations run over the `members` table and the `social_connections` table.
- **Layers.** It also covers the request DTOs with their bean-validation constraints, the error-code tables, the `ApiException` family, the catch ladders of `AuthController` and `SettingController`, the `ApiResponse` envelope with `ResponseAdvice`, and the two `GlobalExceptionHandler`s.

Layout:

- `auth_flow.dfy` (module `AuthFlow`) describes each service operation as a function over a `Store` value.
  - The store holds the members by id, the unique email column, the connection rows and the next identity value.
  - An operation that writes returns the store after its transaction.
  - Every failure is a `RuntimeException`, and the service is `@Transactional`, so a failure returns the store it was given.
  - The database's own checks are modelled where they fire:
    - the member INSERT at `save`, for column limits and the unique email;
    - the connection INSERT at commit, for the unique `providerId`.
  - `Valid` gathers what the schema guarantees:
    - ids are consistent and the email index is exact;
    - every connection has an existing owner and sits in that owner's list;
    - `providerId` is unique, and so is (provider, providerId).
- `services.dfy` has the class `Services.Backend`.
  - Its fields are the tables.
  - Its methods are the services, each proved to produce exactly the result and the store the `AuthFlow` function gives, and to keep `Valid`.
- The Kakao user-info call, the password encoder, the JWT issuer and the names of the provider enum are a `Platform` value of uninterpreted functions.
- `entities.dfy`, `dto.dfy`, `java_lang.dfy` hold:
  - the entities and records;
  - `String.valueOf`/`Long.parseLong`, `trim` and `StringUtils.hasText`.
- `error_codes.dfy` and `exceptions.dfy` hold the status and code tables and the exception classes.
- `api_response.dfy`, `api_advice.dfy` and `error_advice.dfy` hold:
  - the envelope and its wrapping advice;
  - the two exception-handler classes.
  - A handler's outcome is either a response or the exception it throws in turn.
- `auth_controller.dfy` and `setting_controller.dfy` hold the controllers' catch ladders (first matching `catch` wins).
- `hash_maps.dfy` models `HashMap.put` in sequence: the last write for a key wins.

## Model

Source paths are relative to the repository root.

| member | source | states |
|---|---|---|
| JavaLang.Trim | src/main/java/org/example/berichbe/domain/auth/controller/AuthController.java:131 | `trim` returns a slice of the string, removing only characters at or below U+0020 before and after it, and the slice starts and ends above U+0020 |
| JavaLang.TrimEmptyIffAllControl | src/main/java/org/example/berichbe/domain/auth/controller/AuthController.java:131 | `code.trim().isEmpty()` holds exactly when every character of the code is at or below U+0020 |
| JavaLang.LongRoundTrip | src/main/java/org/example/berichbe/domain/auth/entity/KakaoConnection.java:26 | parsing the stored `providerId` gives back the `Long` it was rendered from |
| JavaLang.LongToStringInjective | src/main/java/org/example/berichbe/domain/auth/entity/KakaoConnection.java:26 | two ids with the same stored rendering are the same id |
| JavaLang.ParseLongNotInjective | src/main/java/org/example/berichbe/domain/auth/service/AuthService.java:142 | "007", "+7" and "7" all parse to 7, which is stored as "7": parse-then-render is not injective |
| ErrorCodes.AuthCodeMatchesStatus | src/main/java/org/example/berichbe/domain/auth/enums/AuthErrorCode.java:13-25 | each auth code is "AUTH" + its status value + "_" + a digit |
| ErrorCodes.AuthCodesDistinct | src/main/java/org/example/berichbe/domain/auth/enums/AuthErrorCode.java:13-25 | no two auth error codes share a code string |
| ErrorCodes.CommonCodeIsStatus | src/main/java/org/example/berichbe/global/api/status/common/CommonErrorCode.java:14-33 | every common code is "BERC-" followed by its status value |
| ErrorCodes.CommonCodesShared | src/main/java/org/example/berichbe/global/api/status/common/CommonErrorCode.java:14-33 | common codes are not unique (VALIDATION_FAILED and ILLEGAL_ARGUMENT share one); two codes are equal exactly when their statuses are |
| ErrorCodes.SuccessCodeIsStatus | src/main/java/org/example/berichbe/global/api/status/common/CommonSuccessCode.java:13-15 | OK, CREATED and NO_CONTENT are 200, 201, 204 with "BERC-" + that value |
| Exceptions.NewApiException | src/main/java/org/example/berichbe/global/api/exception/ApiException.java:13-17 | the message is the error code's message; status and code are kept as given |
| Exceptions.SubclassStatuses | src/main/java/org/example/berichbe/global/api/exception/BadRequestException.java:8-10 | the subclasses fix 400, 404, 409, 403, 400 (validation, keeping its field map) and 500; `InternalServerException` discards its message argument |
| Exceptions.AuthExceptionsConsistent | src/main/java/org/example/berichbe/domain/auth/exception/EmailAlreadyExistsException.java:7-9 | each auth exception carries its code with that code's own status (409, 409, 400, 500), as does any exception built from a code and its status |
| Exceptions.FieldEntriesMembers | src/main/java/org/example/berichbe/global/api/advice/GlobalExceptionHandler.java:40-47 | the (field, message) pairs taken from a binding result are exactly its field errors |
| Dto.GettersNullSafe | src/main/java/org/example/berichbe/domain/auth/dto/response/KakaoUserInfoResponseDto.java:25-34 | `getEmail` / `getNickname` give the nested value exactly when every record on the way is present, and null otherwise |
| Dto.ProviderFieldsUnconstrained | src/main/java/org/example/berichbe/domain/auth/dto/request/SignUpRequestDto.java:17-25 | validity does not depend on the provider fields; a missing password fails validation even for a social sign-up |
| Entities.ProviderValueOf | src/main/java/org/example/berichbe/domain/auth/service/AuthService.java:127 | `ProviderType.valueOf` succeeds exactly on a constant's name and returns that constant |
| Entities.KakaoNameIgnoresCase | src/main/java/org/example/berichbe/domain/auth/service/AuthService.java:127 | `valueOf(providerType.toUpperCase())` gives `KAKAO` exactly for a five-letter "kakao" in any mix of cases; upper-casing is idempotent |
| Entities.SetMember | src/main/java/org/example/berichbe/domain/auth/entity/SocialConnection.java:42-44 | `setMember` replaces the owner only; provider and providerId are unchanged |
| Entities.KakaoConnection | src/main/java/org/example/berichbe/domain/auth/entity/KakaoConnection.java:25-27 | the connection has the given member, provider KAKAO, and a providerId that parses back to the id and fits its column |
| Entities.CreateMember | src/main/java/org/example/berichbe/domain/member/entity/Member.java:48-54 | the member copies email and name, keeps the password exactly as given, has no id, no budget and no connections |
| Entities.ValidSignUpFitsColumns | src/main/java/org/example/berichbe/domain/auth/dto/request/SignUpRequestDto.java:8-15 | a valid sign-up request (with a password hash of at most 100 characters) fits the member's column limits |
| Entities.AddSocialConnection | src/main/java/org/example/berichbe/domain/member/entity/Member.java:57-62 | exactly one connection is appended, the earlier ones unchanged, its owner set to this member; nothing else changes |
| Entities.UpdateBudget | src/main/java/org/example/berichbe/domain/member/entity/Member.java:65-67 | only the budget is overwritten |
| Entities.UpdateName | src/main/java/org/example/berichbe/domain/member/entity/Member.java:69-71 | only the name is overwritten |
| AuthFlow.EmailUnique | src/main/java/org/example/berichbe/domain/member/entity/Member.java:23-24 | in a valid store two members with the same email are the same member |
| AuthFlow.ConnectionUnique | src/main/java/org/example/berichbe/domain/auth/entity/SocialConnection.java:14-32 | two connections with the same providerId, or the same (provider, providerId), are the same row |
| AuthFlow.OwnerExists | src/main/java/org/example/berichbe/domain/auth/entity/SocialConnection.java:23-25 | every connection's owner is a member of the store whose list holds it |
| AuthFlow.KakaoLoginFailures | src/main/java/org/example/berichbe/domain/auth/service/AuthService.java:56-59 | a null profile or a null id fails with `KakaoApiFailedException`; a failed call surfaces as the client's own exception |
| AuthFlow.KakaoLoginLinked | src/main/java/org/example/berichbe/domain/auth/service/AuthService.java:62-69 | a Kakao id linked as the decimal string of the id logs that connection's owner in |
| AuthFlow.KakaoLoginUnlinked | src/main/java/org/example/berichbe/domain/auth/service/AuthService.java:73-81 | an unlinked id conflicts when its non-null email is registered; otherwise sign-up is required with ("KAKAO", id, email), a null email never conflicting |
| AuthFlow.SignUp | src/main/java/org/example/berichbe/domain/auth/service/AuthService.java:39-122 | a failed sign-up leaves the store as it was (the transaction rolls back) |
| AuthFlow.SignUpEmailTakenFirst | src/main/java/org/example/berichbe/domain/auth/service/AuthService.java:91-94 | a registered email fails with `EmailAlreadyExistsException` whatever the other fields, and nothing changes |
| AuthFlow.SignUpPasswordBranch | src/main/java/org/example/berichbe/domain/auth/service/AuthService.java:96-107 | without a provider id a blank password is a bad request; the stored password is null with a provider id and `encode(password)` without |
| AuthFlow.SignUpHalfProvider | src/main/java/org/example/berichbe/domain/auth/service/AuthService.java:110-119 | exactly one provider field with text fails with a bad request and the member saved before it is rolled back |
| AuthFlow.SignUpLadderFailures | src/main/java/org/example/berichbe/domain/auth/service/AuthService.java:124-150 | the ladder in order: unknown provider name, raw id already linked, provider other than Kakao, id not a `long`; each fails with its exception |
| AuthFlow.SignUpLinksKakao | src/main/java/org/example/berichbe/domain/auth/service/AuthService.java:139-153 | a parsable Kakao id gives the new member exactly one connection, stored under the rendered id, unless that rendering is already a row, which fails at commit |
| AuthFlow.RawIdCheckMissesCollision | src/main/java/org/example/berichbe/domain/auth/service/AuthService.java:133-143 | with "7" linked, "007" passes the raw duplicate check and then fails at commit as a constraint violation, store unchanged |
| AuthFlow.SignUpErrors | src/main/java/org/example/berichbe/domain/auth/service/AuthService.java:90-154 | the only failures of sign-up are the email conflict, the bad request, the two provider exceptions and a refused row |
| AuthFlow.ValidPasswordCanLackText | src/main/java/org/example/berichbe/domain/auth/service/AuthService.java:102-105 | a password of ideographic spaces passes `@NotBlank` and still fails `hasText` |
| AuthFlow.SignUpPreservesValid | src/main/java/org/example/berichbe/domain/auth/service/AuthService.java:90-154 | sign-up keeps every schema guarantee: unique email, unique providerId and pair, owners present |
| AuthFlow.InsertPreservesValid | src/main/java/org/example/berichbe/domain/auth/service/AuthService.java:110-111 | saving a fresh member that the database accepts keeps the store valid |
| AuthFlow.FlushPreservesValid | src/main/java/org/example/berichbe/domain/auth/service/AuthService.java:152 | committing the member with its new connection, when the database accepts the row, keeps the store valid |
| AuthFlow.ValidSignUpInsertable | src/main/java/org/example/berichbe/domain/member/entity/Member.java:23-31 | a valid request with a free email and a short enough hash is accepted by the member INSERT |
| AuthFlow.LoginOutcome | src/main/java/org/example/berichbe/domain/auth/service/AuthService.java:161-184 | an unknown email is `NotFound(USER_NOT_FOUND)`; a registered one answers with the member's id, name, email, and `budgetSet` exactly when it has a budget |
| AuthFlow.LoginIgnoresPassword | src/main/java/org/example/berichbe/domain/auth/service/AuthService.java:161-165 | the password supplied to login makes no difference |
| AuthFlow.SignUpThenLogin | src/main/java/org/example/berichbe/domain/auth/service/AuthService.java:90-165 | a plain sign-up that the database accepts succeeds, and logging in under that email then gives the same response |
| AuthFlow.SetBudget | src/main/java/org/example/berichbe/domain/setting/service/SettingService.java:22-32 | a failed budget update leaves the store as it was |
| AuthFlow.SetBudgetNegative | src/main/java/org/example/berichbe/domain/setting/service/SettingService.java:23-25 | a negative amount fails with a bad request before the lookup, whatever the id, and nothing changes |
| AuthFlow.SetBudgetUnknownMember | src/main/java/org/example/berichbe/domain/setting/service/SettingService.java:27-28 | an unknown member fails with `NotFound(USER_NOT_FOUND)` and nothing changes |
| AuthFlow.SetBudgetStores | src/main/java/org/example/berichbe/domain/setting/service/SettingService.java:30 | any amount from zero stores exactly that budget on that member; other members, its other fields and the other tables are unchanged |
| AuthFlow.SetBudgetIdempotent | src/main/java/org/example/berichbe/domain/setting/service/SettingService.java:30 | setting the same amount twice equals setting it once |
| AuthFlow.SetBudgetPreservesValid | src/main/java/org/example/berichbe/domain/setting/service/SettingService.java:22-32 | a budget update keeps the store valid |
| AuthFlow.ValidBudgetNotNegative | src/main/java/org/example/berichbe/domain/setting/dto/BudgetRequestDto.java:6-10 | a valid request never takes the negative branch, and succeeds exactly when the member exists |
| AuthFlow.ZeroAmountAcceptedByService | src/main/java/org/example/berichbe/domain/setting/service/SettingService.java:23 | zero fails validation but the service stores it |
| AuthFlow.BudgetThenLoginReportsSet | src/main/java/org/example/berichbe/domain/auth/service/AuthService.java:181 | after a valid budget update, the member's login reports `budgetSet` |
| AuthFlow.LoadUserOutcome | src/main/java/org/example/berichbe/domain/member/service/UserDetailsServiceImpl.java:26-42 | an unknown email is `UsernameNotFound`; a registered one gives its email as username, the hash or "" as password, and the single authority ROLE_USER |
| Services.Backend.constructor | src/main/java/org/example/berichbe/domain/auth/service/AuthService.java:40-47 | the service starts on empty tables, which are valid |
| Services.Backend.Rollback | src/main/java/org/example/berichbe/domain/auth/service/AuthService.java:39 | the rollback restores the tables to the snapshot |
| Services.Backend.KakaoLoginOrRegister | src/main/java/org/example/berichbe/domain/auth/service/AuthService.java:54-83 | the method returns what `AuthFlow.KakaoLoginOrRegister` specifies and writes nothing |
| Services.Backend.HandleSocialConnection | src/main/java/org/example/berichbe/domain/auth/service/AuthService.java:124-154 | the method returns the linked member or the ladder's exception, as `AuthFlow.HandleSocialConnection` specifies |
| Services.Backend.SignUp | src/main/java/org/example/berichbe/domain/auth/service/AuthService.java:90-122 | result and new tables are those of `AuthFlow.SignUp`; the tables stay valid and are unchanged on failure |
| Services.Backend.Login | src/main/java/org/example/berichbe/domain/auth/service/AuthService.java:161-165 | the method returns what `AuthFlow.Login` specifies and writes nothing |
| Services.Backend.SetBudget | src/main/java/org/example/berichbe/domain/setting/service/SettingService.java:22-32 | result and new tables are those of `AuthFlow.SetBudget`; the tables stay valid and are unchanged on failure |
| Services.Backend.LoadUserByUsername | src/main/java/org/example/berichbe/domain/member/service/UserDetailsServiceImpl.java:26-42 | the method returns what `AuthFlow.LoadUserByUsername` specifies and writes nothing |
| HashMaps.PutsLastWriteWins | src/main/java/org/example/berichbe/global/api/advice/GlobalExceptionHandler.java:40-47 | the map has a key exactly for each entry's key, and an entry with no later entry for its key gives that key's value |
| HashMaps.PutAll | src/main/java/org/example/berichbe/global/api/advice/GlobalExceptionHandler.java:42-46 | putting the entries one by one builds the map `Puts` describes |
| ApiResponses.SuccessEnvelopes | src/main/java/org/example/berichbe/global/api/dto/ApiResponse.java:25-31 | `success` carries the code's status, "BERC-" + that status and its message, with data only in the two-argument form |
| ApiResponses.FailEnvelopes | src/main/java/org/example/berichbe/global/api/dto/ApiResponse.java:33-43 | `fail(ex, error)` takes its status from the exception and code and message from the error; `fail(code, message)` is always 500 without data |
| ApiResponses.BeforeBodyWrite | src/main/java/org/example/berichbe/global/api/advice/ResponseAdvice.java:23-33 | null and `ApiResponse` bodies pass unchanged; any other body becomes `success(OK, body)` |
| ApiResponses.Written | src/main/java/org/example/berichbe/global/api/advice/ResponseAdvice.java:17-20 | a handler declared to return `ApiResponse` is not rewritten |
| ApiResponses.WrapIdempotent | src/main/java/org/example/berichbe/global/api/advice/ResponseAdvice.java:17-33 | wrapping twice is wrapping once, and a supported body never leaves the advice unwrapped |
| ApiAdvice.LastDot | src/main/java/org/example/berichbe/global/api/advice/GlobalExceptionHandler.java:52-56 | `lastIndexOf(".")`: -1 or the position of a dot with no dot after it |
| ApiAdvice.FieldName | src/main/java/org/example/berichbe/global/api/advice/GlobalExceptionHandler.java:52-56 | the field name holds no dot and is the suffix after the last dot, or the whole path exactly when it has none |
| ApiAdvice.SpringValidation | src/main/java/org/example/berichbe/global/api/advice/GlobalExceptionHandler.java:40-47 | throws `ValidationException(VALIDATION_FAILED)` with the map of the field errors put in order |
| ApiAdvice.ConstraintViolations | src/main/java/org/example/berichbe/global/api/advice/GlobalExceptionHandler.java:49-58 | throws `ValidationException(VALIDATION_FAILED)` with the map of the violations' field names put in order |
| ApiAdvice.Handle | src/main/java/org/example/berichbe/global/api/advice/GlobalExceptionHandler.java:26-83 | each exception goes to the handler of its closest class, which answers or throws as `Resolve` specifies |
| ApiAdvice.ValidationFields | src/main/java/org/example/berichbe/global/api/advice/GlobalExceptionHandler.java:40-47 | the validation map has a key exactly for each field with a field error |
| ApiAdvice.ViolationFields | src/main/java/org/example/berichbe/global/api/advice/GlobalExceptionHandler.java:49-58 | every violation's field name is a key, holding its message when no later violation names the same field |
| ApiAdvice.ApiExceptionsReport500 | src/main/java/org/example/berichbe/global/api/advice/GlobalExceptionHandler.java:26-37 | an `ApiException` answers status 500 whatever its own status, with its code's code and message; a `ValidationException` keeps its status and its fields |
| ApiAdvice.UncaughtLeaksNothing | src/main/java/org/example/berichbe/global/api/advice/GlobalExceptionHandler.java:79-83 | every exception without a specific handler gets the same INTERNAL_SERVER_ERROR envelope |
| ApiAdvice.DispatchErrorsRethrown | src/main/java/org/example/berichbe/global/api/advice/GlobalExceptionHandler.java:61-76 | no resource and unsupported method become 404 RESOURCE_NOT_FOUND, an unreadable body 400, a missing parameter a one-key field map |
| ErrorAdvice.ErrorBody | src/main/java/org/example/berichbe/global/exception/GlobalExceptionHandler.java:20-29 | the body has status, error and message, and `errors` exactly when a non-empty map is given |
| ErrorAdvice.CreateErrorResponse | src/main/java/org/example/berichbe/global/exception/GlobalExceptionHandler.java:20-29 | putting the entries one by one builds `ErrorBody` under the given status |
| ErrorAdvice.HandleValidation | src/main/java/org/example/berichbe/global/exception/GlobalExceptionHandler.java:32-43 | the cast loop throws on an error of the whole object, and otherwise answers as `Resolve` specifies |
| ErrorAdvice.Handle | src/main/java/org/example/berichbe/global/exception/GlobalExceptionHandler.java:32-67 | each exception goes to the handler of its closest class, which answers or throws as `Resolve` specifies |
| ErrorAdvice.BodiesAgreeWithStatus | src/main/java/org/example/berichbe/global/exception/GlobalExceptionHandler.java:20-67 | in the entity each handler returns, before the response advice rewrites it, the body holds the entity's own status value, error and message, and only a validation failure adds `errors` |
| ErrorAdvice.ValidationAnswer | src/main/java/org/example/berichbe/global/exception/GlobalExceptionHandler.java:32-43 | a validation failure throws exactly when some error is not a field error; otherwise it answers 400 with the field map, present exactly when there are errors |
| ErrorAdvice.StatusByClass | src/main/java/org/example/berichbe/global/exception/GlobalExceptionHandler.java:46-67 | the returned entity has illegal argument 400 and illegal state 409 with the exception's message; anything else 500 with one fixed body |
| ErrorAdvice.AnswersReachClientAsSuccess | src/main/java/org/example/berichbe/global/api/advice/ResponseAdvice.java:13-33 | the response advice also wraps these handlers' map bodies: the client receives a success envelope with status 200 and code "BERC-200" carrying the error map, never the handler's own status |
| AuthController.LaddersKeepStatusConsistent | src/main/java/org/example/berichbe/domain/auth/controller/AuthController.java:55-119 | the ladders fail exactly when the service did, and every exception they build has its code's own status; a bad request passes unchanged |
| AuthController.KakaoLoginAnswers | src/main/java/org/example/berichbe/domain/auth/controller/AuthController.java:53-68 | a failed Kakao call answers INTERNAL_SERVER_ERROR, a missing profile or id KAKAO_API_FAILED, and success is wrapped with OK |
| AuthController.SignUpAnswers | src/main/java/org/example/berichbe/domain/auth/controller/AuthController.java:78-99 | sign-up answers 201 "BERC-201" or throws an exception of status 400, 409 or 500 that matches its code |
| AuthController.CollidingKakaoIdIsInternalError | src/main/java/org/example/berichbe/domain/auth/controller/AuthController.java:95-98 | the "007"/"7" collision reaches the client as an internal error, not as an already-linked account |
| AuthController.TakenEmailEnvelope | src/main/java/org/example/berichbe/domain/auth/controller/AuthController.java:83-85 | a taken email reaches the client through the envelope advice with code AUTH409_1 but status 500 |
| AuthController.LoginNeverUnauthorized | src/main/java/org/example/berichbe/domain/auth/controller/AuthController.java:113-119 | login never answers UNAUTHORIZED; an unknown email is INTERNAL_SERVER_ERROR |
| AuthController.BlankCodeRefusedFirst | src/main/java/org/example/berichbe/domain/auth/controller/AuthController.java:129-144 | a null or blank code is ILLEGAL_ARGUMENT whatever the token call would do; a token comes back under one fixed key |
| SettingController.ErrorResponse | src/main/java/org/example/berichbe/domain/setting/controller/SettingController.java:38-43 | the body has exactly the keys error and message with the given values, under the given status |
| SettingController.SetBudget | src/main/java/org/example/berichbe/domain/setting/controller/SettingController.java:52-81 | no principal answers 401 and a user missing from the user table 404, both with the tables unchanged; otherwise the service's outcome goes through the ladder |
| SettingController.ServiceFailuresAreServerErrors | src/main/java/org/example/berichbe/domain/setting/controller/SettingController.java:74-76 | every failure of the service is a 500 "ServerError": a null amount gives the prefix + "null", an unknown member its NotFound message |
| SettingController.LadderByClass | src/main/java/org/example/berichbe/domain/setting/controller/SettingController.java:68-80 | a missing user answers 404, an illegal argument 400, each with its message; a checked exception the fixed message |
| SettingController.ErrorBodiesWrappedAsSuccess | src/main/java/org/example/berichbe/global/api/advice/ResponseAdvice.java:17-32 | the controller's map bodies, error bodies included, are wrapped by the advice into a 200 success envelope |

## Left out

- Network, hashing and tokens are parameters of `AuthFlow.Platform`, not modelled:
  - the Kakao HTTP client (`KakaoApiService`);
  - the BCrypt encoder;
  - `JwtTokenProvider`;
  - the `AuthenticationManager`.
- The token exchange of the test endpoint is a function parameter of `AuthController.KakaoTokenForTest`.
- The `ProviderType` enum is not part of this model. Its constant names other than `KAKAO` are `Platform.otherProviders`.
- `BUDGET_CANNOT_BE_NEGATIVE` is not defined by `CommonErrorCode`. It is modelled as an error code of its own with status 400, code "BERC-400" and an empty message. The code and the message are assumptions.
- JavaLang.ToUpperCase: only ASCII letters are upper-cased. Java's locale-sensitive Unicode mapping is not modelled.
- JavaLang.ParseLong: ASCII digits only. `Long.parseLong` also accepts other Unicode digits.
- `@Email` is an uninterpreted predicate `isEmail`.
- String lengths count characters, not UTF-16 code units.
- Entities are records, not shared objects.
  - Aliasing between `newMember` and the object JPA manages is not modelled.
  - The cascade of the new connection is modelled as an insert at commit.
- A rolled-back transaction also restores the next identity value. A real database may skip the consumed id.
- Exception messages of the database and of a `NullPointerException` are not modelled:
  - a refused row is one exception kind;
  - a null amount is an exception with no message.
- Concurrency is not modelled, including the race between `existsByEmail` and `save`.
- The two `@RestControllerAdvice` classes:
  - which one wins for a given exception is not determined by the code; each is modelled on its own;
  - an exception thrown by a handler is not dispatched again by Spring, so the `Throw` outcomes end there.
- The order in which a `ConstraintViolationException` yields its violations is unspecified. The model takes it as a given sequence.
- A field error's default message is modelled as a present string. It may be null in Spring.
- Request binding and `@Valid` run before the controller bodies. They are not modelled; the validity predicates state what they accept.
- An `ApiResponse` envelope carries a status value in its body. The HTTP status line of such answers is not modelled.
- `SettingController` looks the principal up in the separate `User` table. The model takes that table as a map from email to id, not related to `members`.
- Logging and the `BaseTimeEntity` timestamps are left out.
- The servlet filters, the security and Swagger configuration, and `ErrorCode.formatMessage` are left out.
- The repository interfaces have no bodies; they are the store's maps and set.
- The divergent `User` entity and its `UserDetailsServiceImpl` are left out; the `Member` path is the one the services use.
