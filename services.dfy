/**
 * The services as one object over the tables they share: `AuthService`,
 * `SettingService` and the member `UserDetailsService`. The fields are the
 * database; each method that writes is proved to leave exactly the store
 * its specification in `AuthFlow` describes, and to keep `Valid`.
 */
module Services {
  import opened Wrappers
  import opened JavaLang
  import opened ErrorCodes
  import opened Exceptions
  import opened Dto
  import opened Entities
  import AuthFlow

  /** The services over the tables as fields. The writing methods update the
      fields; the read-only ones are delegations to the `AuthFlow` function
      of the same name, which carries their properties. */
  class Backend {
    /** The `members` table, by id. */
    var members: map<int, Member>
    /** The unique `email` column. */
    var emailIndex: map<string, int>
    /** The `social_connections` table. */
    var connections: set<SocialConnection>
    /** The next identity value. */
    var nextId: int
    const platform: AuthFlow.Platform

    /** The database as a value. */
    function State(): AuthFlow.Store
      reads this
    {
      AuthFlow.Store(members, emailIndex, connections, nextId)
    }

    ghost predicate Valid()
      reads this
    {
      AuthFlow.Valid(State())
    }

    constructor (platform: AuthFlow.Platform)
      ensures Valid() && State() == AuthFlow.EmptyStore()
      ensures this.platform == platform
    {
      members := map[];
      emailIndex := map[];
      connections := {};
      nextId := 1;
      this.platform := platform;
    }

    /** The transaction's rollback: the tables return to the snapshot. */
    method Rollback(snapshot: AuthFlow.Store)
      modifies this
      ensures State() == snapshot
    {
      members := snapshot.members;
      emailIndex := snapshot.emailIndex;
      connections := snapshot.connections;
      nextId := snapshot.nextId;
    }

    /** `kakaoLoginOrRegister`: reads the tables, writes nothing. */
    method KakaoLoginOrRegister(dto: KakaoLoginRequest) returns (r: Result<AuthFlow.KakaoOutcome, Exception>)
      requires Valid()
      ensures r == AuthFlow.KakaoLoginOrRegister(State(), platform, dto)
    {
      var reply := platform.kakaoUserInfo(dto.accessToken);
      if reply.CallFailed? {
        return Err(Runtime(Some(reply.message)));
      }
      var info := reply.body;
      if info.None? || info.value.id.None? {
        return Err(KakaoApiFailedException());
      }
      var kakaoProviderId := LongToString(info.value.id.value);
      var found := AuthFlow.FindConnection(State(), KAKAO, kakaoProviderId);
      if found.Some? {
        var member := members[found.value.member.value];
        return Ok(AuthFlow.LoggedIn(AuthFlow.CreateLoginResponse(platform, member)));
      }
      var emailFromKakao := info.value.GetEmail();
      if emailFromKakao.Some? && AuthFlow.ExistsByEmail(State(), emailFromKakao) {
        return Err(EmailAlreadyExistsException());
      }
      r := Ok(AuthFlow.SignUpRequired(SignUpRequiredResponse(KAKAO.Name(), kakaoProviderId, emailFromKakao)));
    }

    /** `handleSocialConnection`: checks the provider and links the new
        member; it reads the tables and returns the member it changed. */
    method HandleSocialConnection(dto: SignUpRequest, newMember: Member) returns (r: Result<Member, Exception>)
      requires HasText(dto.providerType) && HasText(dto.providerId)
      ensures r == AuthFlow.HandleSocialConnection(State(), platform, dto, newMember)
    {
      var providerType := ProviderValueOf(ToUpperCase(dto.providerType.value), platform.otherProviders);
      if providerType.None? {
        return Err(InvalidProviderTypeException());
      }
      var socialProviderId := dto.providerId.value;
      if AuthFlow.Linked(State(), providerType.value, socialProviderId) {
        return Err(SocialAccountAlreadyLinkedException());
      }
      if providerType.value != KAKAO {
        return Err(InvalidProviderTypeException());
      }
      var kakaoProviderId := ParseLong(socialProviderId);
      if kakaoProviderId.None? {
        return Err(BadRequestException(Common(ILLEGAL_ARGUMENT)));
      }
      var socialConnection := KakaoConnection(newMember.id, kakaoProviderId.value);
      r := Ok(AddSocialConnection(newMember, socialConnection));
    }

    /** `signUp`: saves the member, links the provider if asked, and
        commits; every failure rolls the tables back. */
    method SignUp(dto: SignUpRequest) returns (r: Result<LoginResponse, Exception>)
      requires Valid()
      modifies this
      ensures Valid()
      ensures (r, State()) == AuthFlow.SignUp(old(State()), platform, dto)
      ensures r.Err? ==> State() == old(State())
    {
      AuthFlow.SignUpPreservesValid(State(), platform, dto);
      if AuthFlow.ExistsByEmail(State(), dto.email) {
        return Err(EmailAlreadyExistsException());
      }
      var encodedPassword: Option<string> := None;
      if !HasText(dto.providerId) {
        if !HasText(dto.password) {
          return Err(BadRequestException(Common(ILLEGAL_ARGUMENT)));
        }
        encodedPassword := Some(platform.encode(dto.password.value));
      }

      var snapshot := State();
      // save: the identity is assigned by an immediate INSERT
      var newMember := CreateMember(dto, encodedPassword).(id := Some(nextId));
      if !AuthFlow.CanInsert(State(), newMember) {
        return Err(DataIntegrityViolation);
      }
      members := members[nextId := newMember];
      emailIndex := emailIndex[newMember.email.value := nextId];
      nextId := nextId + 1;
      ghost var saved := State();
      assert saved == AuthFlow.Insert(snapshot, newMember);

      if HasText(dto.providerType) && HasText(dto.providerId) {
        var linked := HandleSocialConnection(dto, newMember);
        if linked.Err? {
          Rollback(snapshot);
          return Err(linked.error);
        }
        newMember := linked.value;
      } else if HasText(dto.providerType) || HasText(dto.providerId) {
        Rollback(snapshot);
        return Err(BadRequestException(Common(ILLEGAL_ARGUMENT)));
      }
      var response := AuthFlow.CreateLoginResponse(platform, newMember);

      // commit: the cascade inserts the member's new connection rows
      if !AuthFlow.CanFlush(State(), newMember) {
        Rollback(snapshot);
        return Err(DataIntegrityViolation);
      }
      members := members[newMember.id.value := newMember];
      connections := connections + set c | c in newMember.socialConnections;
      assert State() == AuthFlow.Flush(saved, newMember);
      r := Ok(response);
    }

    /** `login`: reads the tables, writes nothing. */
    method Login(dto: LoginRequest) returns (r: Result<LoginResponse, Exception>)
      requires Valid()
      ensures r == AuthFlow.Login(State(), platform, dto)
    {
      var member := AuthFlow.FindByEmail(State(), dto.email);
      if member.None? {
        return Err(NotFoundException(Common(USER_NOT_FOUND)));
      }
      r := Ok(AuthFlow.CreateLoginResponse(platform, member.value));
    }

    /** `setBudget`: checks the amount, finds the member, and overwrites
        its budget in place. */
    method SetBudget(memberId: Long, dto: BudgetRequest) returns (r: Result<(), Exception>)
      requires Valid()
      modifies this
      ensures Valid()
      ensures (r, State()) == AuthFlow.SetBudget(old(State()), memberId, dto)
      ensures r.Err? ==> State() == old(State())
    {
      AuthFlow.SetBudgetPreservesValid(State(), memberId, dto);
      if dto.amount.None? {
        // unboxing the null amount
        return Err(NullPointer);
      }
      if dto.amount.value < 0 {
        return Err(BadRequestException(BudgetCannotBeNegative));
      }
      if memberId !in members {
        return Err(NotFoundException(Common(USER_NOT_FOUND)));
      }
      var member := members[memberId];
      members := members[memberId := UpdateBudget(member, dto.amount)];
      r := Ok(());
    }

    /** `loadUserByUsername`: reads the tables, writes nothing. */
    method LoadUserByUsername(email: Option<string>) returns (r: Result<AuthFlow.UserDetails, Exception>)
      requires Valid()
      ensures r == AuthFlow.LoadUserByUsername(State(), email)
    {
      var member := AuthFlow.FindByEmail(State(), email);
      if member.None? {
        return Err(UsernameNotFound(Some("해당 이메일을 가진 사용자를 찾을 수 없습니다: " + StringValueOf(email))));
      }
      var m := member.value;
      var password := if m.password.Some? then m.password.value else "";
      if m.email.value == "" {
        return Err(IllegalArgument(Some("Cannot pass null or empty values to constructor")));
      }
      r := Ok(AuthFlow.UserDetails(m.email.value, password, ["ROLE_USER"]));
    }
  }
}
