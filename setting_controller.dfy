/**
 * `SettingController.setBudget`: the principal check, the lookup of the
 * principal in the `users` table (a table of its own, apart from
 * `members`), the service call, and the catch ladder that turns its
 * outcome into a status and a small map body.
 */
module SettingController {
  import opened Wrappers
  import opened JavaLang
  import opened ErrorCodes
  import opened Exceptions
  import opened Dto
  import opened ApiResponses
  import AuthFlow
  import Services
  import Http

  /** A `ResponseEntity<Map<String, String>>`; a value may be null. */
  datatype ControllerResponse = ControllerResponse(status: Http.HttpStatus, body: map<string, Option<string>>)

  const NO_PRINCIPAL := "인증 정보가 없습니다."
  const USER_MISSING := "인증된 사용자를 DB에서 찾을 수 없습니다: "
  const BUDGET_SET := "예산이 성공적으로 설정되었습니다."
  const RUNTIME_PREFIX := "예산 설정 중 오류가 발생했습니다: "
  const UNEXPECTED := "예산 설정 중 예기치 않은 오류가 발생했습니다."

  /** `createErrorResponse`: the status, with the error name and the message. */
  function ErrorResponse(status: Http.HttpStatus, error: string, message: Option<string>): (r: ControllerResponse)
    ensures r.status == status && r.body.Keys == {"error", "message"}
    ensures r.body["error"] == Some(error) && r.body["message"] == message
  {
    ControllerResponse(status, map["error" := Some(error), "message" := message])
  }

  /** The catch ladder around the lookup and the service call, first match
      first: a missing user, an illegal argument, any other unchecked
      exception (its message appended, "null" when it has none), and
      anything else. */
  function BudgetLadder(result: Result<(), Exception>): ControllerResponse {
    match result
    case Ok(_) => ControllerResponse(Http.OK, map["message" := Some(BUDGET_SET)])
    case Err(e) =>
      if e.UsernameNotFound? then ErrorResponse(Http.NOT_FOUND, "UserNotFound", e.message)
      else if e.IllegalArgument? then ErrorResponse(Http.BAD_REQUEST, "InvalidArgument", e.message)
      else if e.IsRuntime() then ErrorResponse(Http.INTERNAL_SERVER_ERROR, "ServerError", Some(RUNTIME_PREFIX + StringValueOf(e.Message())))
      else ErrorResponse(Http.INTERNAL_SERVER_ERROR, "ServerError", Some(UNEXPECTED))
  }

  /** `setBudget`: without a principal the service is not called; a
      principal missing from `users` is not found; otherwise the service
      runs on the user's id and its outcome goes through the ladder. */
  method SetBudget(backend: Services.Backend, principal: Option<AuthFlow.UserDetails>,
                   users: map<string, Long>, dto: BudgetRequest) returns (response: ControllerResponse)
    requires backend.Valid()
    modifies backend
    ensures backend.Valid()
    ensures principal.None? ==>
              response == ErrorResponse(Http.UNAUTHORIZED, "Unauthorized", Some(NO_PRINCIPAL)) &&
              backend.State() == old(backend.State())
    ensures principal.Some? && principal.value.username !in users ==>
              response == ErrorResponse(Http.NOT_FOUND, "UserNotFound", Some(USER_MISSING + principal.value.username)) &&
              backend.State() == old(backend.State())
    ensures principal.Some? && principal.value.username in users ==>
              var (r, s') := AuthFlow.SetBudget(old(backend.State()), users[principal.value.username], dto);
              response == BudgetLadder(r) && backend.State() == s'
  {
    if principal.None? {
      return ErrorResponse(Http.UNAUTHORIZED, "Unauthorized", Some(NO_PRINCIPAL));
    }
    var username := principal.value.username;
    var result: Result<(), Exception>;
    if username !in users {
      result := Err(UsernameNotFound(Some(USER_MISSING + username)));
    } else {
      result := backend.SetBudget(users[username], dto);
    }
    response := BudgetLadder(result);
  }

  /** The service's own failures are `RuntimeException`s but neither a
      missing user nor an illegal argument, so each answers 500
      "ServerError", a missing member included. */
  lemma ServiceFailuresAreServerErrors(s: AuthFlow.Store, memberId: Long, dto: BudgetRequest)
    ensures var r := AuthFlow.SetBudget(s, memberId, dto).0;
            && (r.Err? ==> BudgetLadder(r).status == Http.INTERNAL_SERVER_ERROR &&
                           BudgetLadder(r).body["error"] == Some("ServerError"))
            && (r.Ok? ==> BudgetLadder(r).status == Http.OK)
    ensures dto.amount.None? ==>
              BudgetLadder(AuthFlow.SetBudget(s, memberId, dto).0).body["message"] == Some(RUNTIME_PREFIX + "null")
    ensures ValidBudget(dto) && memberId !in s.members ==>
              BudgetLadder(AuthFlow.SetBudget(s, memberId, dto).0) ==
              ErrorResponse(Http.INTERNAL_SERVER_ERROR, "ServerError", Some(RUNTIME_PREFIX + USER_NOT_FOUND.Message()))
  {
  }

  /** The two catches before the generic ones: a missing user answers 404
      and an illegal argument 400, each with the exception's own message. */
  lemma LadderByClass(e: Exception)
    ensures e.UsernameNotFound? ==> BudgetLadder(Err(e)) == ErrorResponse(Http.NOT_FOUND, "UserNotFound", e.message)
    ensures e.IllegalArgument? ==> BudgetLadder(Err(e)) == ErrorResponse(Http.BAD_REQUEST, "InvalidArgument", e.message)
    ensures !e.IsRuntime() ==> BudgetLadder(Err(e)).body["message"] == Some(UNEXPECTED)
  {
  }

  /** The controller's maps are not `ApiResponse`s, so the response advice
      wraps each of them, an error body included, in a success envelope of
      status 200. */
  lemma ErrorBodiesWrappedAsSuccess(r: ControllerResponse)
    ensures Written(ResponseEntityType, Plain(StringMap(r.body))) == Envelope(SuccessWith(OK, StringMap(r.body)))
    ensures Written(ResponseEntityType, Plain(StringMap(r.body))).response.status == 200
  {
  }
}
