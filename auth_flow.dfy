/**
 * What the auth and setting services do to the database, as functions over
 * a store value: the `members` table with its email index, and the
 * `social_connections` table. Each operation that writes returns the store
 * after its transaction: the old store when it throws, since every failure
 * is a `RuntimeException` and rolls back.
 *
 * The Kakao user-info call, the password encoder, the JWT issuer and the
 * names of the provider enum are the `Platform` the services are given.
 */
module AuthFlow {
  import opened Wrappers
  import opened JavaLang
  import opened ErrorCodes
  import opened Exceptions
  import opened Dto
  import opened Entities

  /** The Kakao user-info call: the body of a 200 answer (which may itself
      be null), or the `RuntimeException` the client throws otherwise. */
  datatype KakaoReply = Fetched(body: Option<KakaoUserInfo>) | CallFailed(message: string)

  /** The collaborators whose code is not modelled. */
  datatype Platform = Platform(
    /** `KakaoApiService.getUserInfo`, given the access token. */
    kakaoUserInfo: Option<string> -> KakaoReply,
    /** `PasswordEncoder.encode`. */
    encode: string -> string,
    /** `JwtTokenProvider.createAccessToken` for a `ROLE_USER`
        authentication whose principal is the given email. */
    createAccessToken: Option<string> -> string,
    /** The names of the `ProviderType` constants besides `KAKAO`. */
    otherProviders: set<string>)

  /** The database: members by id, the unique email column as an index,
      the connection rows, and the next identity value. */
  datatype Store = Store(
    members: map<int, Member>,
    emailIndex: map<string, int>,
    connections: set<SocialConnection>,
    nextId: int)

  /** What the schema and the entity mapping guarantee of a store. */
  ghost predicate Valid(s: Store) {
    // every member row has its own id, fits its columns and is indexed
    && (forall id :: id in s.members ==>
          && s.members[id].id == Some(id) && id < s.nextId
          && FitsColumns(s.members[id])
          && s.members[id].email.value in s.emailIndex
          && s.emailIndex[s.members[id].email.value] == id)
    // the index points at the member holding that email
    && (forall e :: e in s.emailIndex ==>
          s.emailIndex[e] in s.members && s.members[s.emailIndex[e]].email == Some(e))
    // every connection row fits, has an owner, and is in the owner's list
    && (forall c :: c in s.connections ==>
          && ConnectionFitsColumns(c)
          && c.member.value in s.members
          && c in s.members[c.member.value].socialConnections)
    // a member's list holds exactly its own connection rows
    && (forall id, c :: id in s.members && c in s.members[id].socialConnections ==>
          c in s.connections && c.member == Some(id))
    // providerId is a unique column
    && (forall c, d :: c in s.connections && d in s.connections && c.providerId == d.providerId ==> c == d)
  }

  /** The store of a fresh database. */
  function EmptyStore(): (s: Store)
    ensures Valid(s)
  {
    Store(map[], map[], {}, 1)
  }

  // ---------------------------------------------------------------------
  // The schema's uniqueness guarantees
  // ---------------------------------------------------------------------

  /** No two members share an email. */
  lemma EmailUnique(s: Store, a: int, b: int)
    requires Valid(s) && a in s.members && b in s.members
    requires s.members[a].email == s.members[b].email
    ensures a == b
  {
    assert s.emailIndex[s.members[a].email.value] == a;
  }

  /** No two connections share a provider id, so none share the pair
      (provider, providerId) either. */
  lemma ConnectionUnique(s: Store, c: SocialConnection, d: SocialConnection)
    requires Valid(s) && c in s.connections && d in s.connections
    requires c.providerId == d.providerId || (c.provider == d.provider && c.providerId == d.providerId)
    ensures c == d
  {
  }

  /** Every connection's owner exists, and lists it. */
  lemma OwnerExists(s: Store, c: SocialConnection)
    requires Valid(s) && c in s.connections
    ensures c.member.Some? && c.member.value in s.members
    ensures c in s.members[c.member.value].socialConnections
  {
  }

  // ---------------------------------------------------------------------
  // Repository queries
  // ---------------------------------------------------------------------

  /** `existsByEmail`; a null email matches no row. */
  predicate ExistsByEmail(s: Store, email: Option<string>) {
    email.Some? && email.value in s.emailIndex
  }

  /** `findByEmail`: the member holding that email. */
  function FindByEmail(s: Store, email: Option<string>): (r: Option<Member>)
    requires Valid(s)
    ensures r.Some? <==> ExistsByEmail(s, email)
    ensures r.Some? ==>
              && r.value.email == email && r.value.id.Some?
              && r.value.id.value in s.members && s.members[r.value.id.value] == r.value
  {
    if ExistsByEmail(s, email) then
      var id := s.emailIndex[email.value];
      assert id in s.members && s.members[id].id == Some(id);
      Some(s.members[id])
    else None
  }

  /** Whether `findByProviderAndProviderId` finds a row. */
  predicate Linked(s: Store, provider: ProviderType, providerId: string) {
    exists c :: c in s.connections && c.provider == provider && c.providerId == providerId
  }

  /** `findByProviderAndProviderId`: the row, unique by the schema. */
  function FindConnection(s: Store, provider: ProviderType, providerId: string): (r: Option<SocialConnection>)
    requires Valid(s)
    ensures r.Some? <==> Linked(s, provider, providerId)
    ensures r.Some? ==> r.value in s.connections && r.value.provider == provider && r.value.providerId == providerId
  {
    if Linked(s, provider, providerId) then
      var c :| c in s.connections && c.provider == provider && c.providerId == providerId;
      Some(c)
    else None
  }

  // ---------------------------------------------------------------------
  // createLoginResponse
  // ---------------------------------------------------------------------

  function CreateLoginResponse(p: Platform, m: Member): LoginResponse {
    LoginResponse(p.createAccessToken(m.email), m.id, m.name, m.email, m.budget.Some?)
  }

  // ---------------------------------------------------------------------
  // kakaoLoginOrRegister
  // ---------------------------------------------------------------------

  /** The two answers of a Kakao login. */
  datatype KakaoOutcome = LoggedIn(login: LoginResponse) | SignUpRequired(required: SignUpRequiredResponse)

  /** `kakaoLoginOrRegister`: a read-only lookup; it writes nothing. */
  function KakaoLoginOrRegister(s: Store, p: Platform, dto: KakaoLoginRequest): Result<KakaoOutcome, Exception>
    requires Valid(s)
  {
    match p.kakaoUserInfo(dto.accessToken)
    case CallFailed(message) => Err(Runtime(Some(message)))
    case Fetched(info) =>
      if info.None? || info.value.id.None? then Err(KakaoApiFailedException())
      else
        var providerId := LongToString(info.value.id.value);
        match FindConnection(s, KAKAO, providerId)
        case Some(c) => Ok(LoggedIn(CreateLoginResponse(p, s.members[c.member.value])))
        case None =>
          var email := info.value.GetEmail();
          if email.Some? && ExistsByEmail(s, email) then Err(EmailAlreadyExistsException())
          else Ok(SignUpRequired(SignUpRequiredResponse(KAKAO.Name(), providerId, email)))
  }

  /** A null profile or a null id is an API failure; a failed call is the
      client's own exception. */
  lemma KakaoLoginFailures(s: Store, p: Platform, dto: KakaoLoginRequest)
    requires Valid(s)
    ensures p.kakaoUserInfo(dto.accessToken).CallFailed? ==>
              KakaoLoginOrRegister(s, p, dto) == Err(Runtime(Some(p.kakaoUserInfo(dto.accessToken).message)))
    ensures p.kakaoUserInfo(dto.accessToken).Fetched? &&
            (p.kakaoUserInfo(dto.accessToken).body.None? || p.kakaoUserInfo(dto.accessToken).body.value.id.None?) ==>
              KakaoLoginOrRegister(s, p, dto) == Err(KakaoApiFailedException())
  {
  }

  /** A Kakao id already linked logs its owner in. */
  lemma KakaoLoginLinked(s: Store, p: Platform, dto: KakaoLoginRequest, info: KakaoUserInfo, c: SocialConnection)
    requires Valid(s)
    requires p.kakaoUserInfo(dto.accessToken) == Fetched(Some(info)) && info.id.Some?
    requires c in s.connections && c.provider == KAKAO && c.providerId == LongToString(info.id.value)
    ensures c.member.Some? && c.member.value in s.members
    ensures KakaoLoginOrRegister(s, p, dto) == Ok(LoggedIn(CreateLoginResponse(p, s.members[c.member.value])))
  {
    var found := FindConnection(s, KAKAO, LongToString(info.id.value));
    ConnectionUnique(s, found.value, c);
  }

  /** An unlinked Kakao id: a registered (non-null) email conflicts, and
      otherwise sign-up is required with the rendered id and the email as
      given, null included. */
  lemma KakaoLoginUnlinked(s: Store, p: Platform, dto: KakaoLoginRequest, info: KakaoUserInfo)
    requires Valid(s)
    requires p.kakaoUserInfo(dto.accessToken) == Fetched(Some(info)) && info.id.Some?
    requires !Linked(s, KAKAO, LongToString(info.id.value))
    ensures info.GetEmail().Some? && info.GetEmail().value in s.emailIndex ==>
              KakaoLoginOrRegister(s, p, dto) == Err(EmailAlreadyExistsException())
    ensures info.GetEmail().None? || info.GetEmail().value !in s.emailIndex ==>
              KakaoLoginOrRegister(s, p, dto) ==
              Ok(SignUpRequired(SignUpRequiredResponse("KAKAO", LongToString(info.id.value), info.GetEmail())))
  {
  }

  // ---------------------------------------------------------------------
  // signUp and handleSocialConnection
  // ---------------------------------------------------------------------

  /** The password branch: none for a social sign-up, else the encoding of
      a password that has text. */
  function PasswordFor(p: Platform, dto: SignUpRequest): Result<Option<string>, Exception> {
    if HasText(dto.providerId) then Ok(None)
    else if !HasText(dto.password) then Err(BadRequestException(Common(ILLEGAL_ARGUMENT)))
    else Ok(Some(p.encode(dto.password.value)))
  }

  /** The member `save` inserts: `createMember`, given the next identity. */
  function NewMemberRow(s: Store, dto: SignUpRequest, password: Option<string>): Member {
    CreateMember(dto, password).(id := Some(s.nextId))
  }

  /** Whether the database accepts the INSERT of a new member row. */
  predicate CanInsert(s: Store, m: Member) {
    FitsColumns(m) && m.email.value !in s.emailIndex
  }

  /** The store after the INSERT of a new member row. */
  function Insert(s: Store, m: Member): Store
    requires FitsColumns(m)
  {
    s.(members := s.members[s.nextId := m],
       emailIndex := s.emailIndex[m.email.value := s.nextId],
       nextId := s.nextId + 1)
  }

  /** `handleSocialConnection`: the member with its new connection. The
      duplicate check uses the raw provider id; the stored id is the
      rendering of the parsed number. */
  function HandleSocialConnection(s: Store, p: Platform, dto: SignUpRequest, m: Member): Result<Member, Exception>
    requires HasText(dto.providerType) && HasText(dto.providerId)
  {
    match ProviderValueOf(ToUpperCase(dto.providerType.value), p.otherProviders)
    case None => Err(InvalidProviderTypeException())
    case Some(provider) =>
      var raw := dto.providerId.value;
      if Linked(s, provider, raw) then Err(SocialAccountAlreadyLinkedException())
      else if provider != KAKAO then Err(InvalidProviderTypeException())
      else match ParseLong(raw)
        case None => Err(BadRequestException(Common(ILLEGAL_ARGUMENT)))
        case Some(kakaoId) => Ok(AddSocialConnection(m, KakaoConnection(m.id, kakaoId)))
  }

  /** The provider step of `signUp`: link when both fields have text,
      refuse when only one has. */
  function LinkStep(s: Store, p: Platform, dto: SignUpRequest, m: Member): (r: Result<Member, Exception>)
    ensures r.Ok? ==> r.value == m || exists n: Long :: r.value == AddSocialConnection(m, KakaoConnection(m.id, n))
  {
    if HasText(dto.providerType) && HasText(dto.providerId) then HandleSocialConnection(s, p, dto, m)
    else if HasText(dto.providerType) || HasText(dto.providerId) then Err(BadRequestException(Common(ILLEGAL_ARGUMENT)))
    else Ok(m)
  }

  /** Whether the commit's cascade INSERT of the member's connections is
      accepted: every row fits and no provider id is taken. */
  predicate CanFlush(s: Store, m: Member) {
    forall c :: c in m.socialConnections ==>
      ConnectionFitsColumns(c) && forall d :: d in s.connections ==> d.providerId != c.providerId
  }

  /** The store after the commit. */
  function Flush(s: Store, m: Member): Store
    requires m.id.Some?
  {
    s.(members := s.members[m.id.value := m],
       connections := s.connections + (set c | c in m.socialConnections))
  }

  /** `signUp`, with the store after its transaction. */
  function SignUp(s: Store, p: Platform, dto: SignUpRequest): (r: (Result<LoginResponse, Exception>, Store))
    ensures r.0.Err? ==> r.1 == s
  {
    if ExistsByEmail(s, dto.email) then (Err(EmailAlreadyExistsException()), s)
    else match PasswordFor(p, dto)
      case Err(e) => (Err(e), s)
      case Ok(password) =>
        var m := NewMemberRow(s, dto, password);
        if !CanInsert(s, m) then (Err(DataIntegrityViolation), s)
        else
          var saved := Insert(s, m);
          match LinkStep(saved, p, dto, m)
          case Err(e) => (Err(e), s)
          case Ok(linked) =>
            if !CanFlush(saved, linked) then (Err(DataIntegrityViolation), s)
            else (Ok(CreateLoginResponse(p, linked)), Flush(saved, linked))
  }

  /** A registered email fails first, whatever the other fields hold. */
  lemma SignUpEmailTakenFirst(s: Store, p: Platform, dto: SignUpRequest)
    requires ExistsByEmail(s, dto.email)
    ensures SignUp(s, p, dto) == (Err(EmailAlreadyExistsException()), s)
  {
  }

  /** The password branch: a blank password fails a sign-up without a
      provider id; on success the stored password is null for a social
      sign-up and the encoding of the given one otherwise. */
  lemma SignUpPasswordBranch(s: Store, p: Platform, dto: SignUpRequest)
    requires Valid(s) && !ExistsByEmail(s, dto.email)
    ensures !HasText(dto.providerId) && !HasText(dto.password) ==>
              SignUp(s, p, dto) == (Err(BadRequestException(Common(ILLEGAL_ARGUMENT))), s)
    ensures SignUp(s, p, dto).0.Ok? ==>
              s.nextId in SignUp(s, p, dto).1.members &&
              SignUp(s, p, dto).1.members[s.nextId].password ==
                (if HasText(dto.providerId) then None else Some(p.encode(dto.password.value)))
  {
  }

  /** Exactly one of the provider fields with text: the sign-up fails and
      the member saved before the check is rolled back. */
  lemma SignUpHalfProvider(s: Store, p: Platform, dto: SignUpRequest)
    requires HasText(dto.providerType) != HasText(dto.providerId)
    ensures SignUp(s, p, dto).0.Err? && SignUp(s, p, dto).1 == s
    ensures !ExistsByEmail(s, dto.email) && PasswordFor(p, dto).Ok? &&
            CanInsert(s, NewMemberRow(s, dto, PasswordFor(p, dto).value)) ==>
              SignUp(s, p, dto).0 == Err(BadRequestException(Common(ILLEGAL_ARGUMENT)))
  {
  }

  /** The preconditions of the provider ladder: a free email and an
      accepted member INSERT, with both provider fields holding text. */
  predicate ReachesLadder(s: Store, dto: SignUpRequest) {
    && !ExistsByEmail(s, dto.email)
    && HasText(dto.providerType) && HasText(dto.providerId)
    && CanInsert(s, NewMemberRow(s, dto, None))
  }

  /** The first four rungs of the ladder, in order: an unknown provider
      name, a raw id already linked, a provider other than Kakao, an id
      that is not a `long`. Each fails and rolls the member back. */
  lemma SignUpLadderFailures(s: Store, p: Platform, dto: SignUpRequest)
    requires ReachesLadder(s, dto)
    ensures var provider := ProviderValueOf(ToUpperCase(dto.providerType.value), p.otherProviders);
            var raw := dto.providerId.value;
            var r := SignUp(s, p, dto).0;
            && (provider.None? ==> r == Err(InvalidProviderTypeException()))
            && (provider.Some? && Linked(s, provider.value, raw) ==> r == Err(SocialAccountAlreadyLinkedException()))
            && (provider.Some? && !Linked(s, provider.value, raw) && provider.value != KAKAO ==>
                  r == Err(InvalidProviderTypeException()))
            && (provider == Some(KAKAO) && !Linked(s, KAKAO, raw) && ParseLong(raw).None? ==>
                  r == Err(BadRequestException(Common(ILLEGAL_ARGUMENT))))
  {
    var saved := Insert(s, NewMemberRow(s, dto, None));
    assert saved.connections == s.connections;
  }

  /** The last rung: a Kakao id that parses gives the new member exactly
      one connection, stored under the rendering of the parsed id, unless
      that rendering is already taken. */
  lemma SignUpLinksKakao(s: Store, p: Platform, dto: SignUpRequest, kakaoId: Long)
    requires ReachesLadder(s, dto)
    requires ProviderValueOf(ToUpperCase(dto.providerType.value), p.otherProviders) == Some(KAKAO)
    requires !Linked(s, KAKAO, dto.providerId.value)
    requires ParseLong(dto.providerId.value) == Some(kakaoId)
    ensures var c := KakaoConnection(Some(s.nextId), kakaoId);
            var (r, s') := SignUp(s, p, dto);
            && ((exists d :: d in s.connections && d.providerId == c.providerId) ==> r == Err(DataIntegrityViolation) && s' == s)
            && ((forall d :: d in s.connections ==> d.providerId != c.providerId) ==>
                  && r.Ok? && r.value.userId == Some(s.nextId)
                  && s'.connections == s.connections + {c}
                  && s'.members[s.nextId].socialConnections == [c])
  {
    var m := NewMemberRow(s, dto, None);
    var saved := Insert(s, m);
    var c := KakaoConnection(Some(s.nextId), kakaoId);
    var linked := AddSocialConnection(m, c);
    assert PasswordFor(p, dto) == Ok(None);
    assert HandleSocialConnection(saved, p, dto, m) == Ok(linked);
    assert LinkStep(saved, p, dto, m) == Ok(linked);
    assert linked.socialConnections == [c];
    assert CanFlush(saved, linked) <==> forall d :: d in s.connections ==> d.providerId != c.providerId;
    assert (set x | x in linked.socialConnections) == {c};
  }

  /** The duplicate check compares the raw id, so "007" passes it even
      when "7" is linked; the clash then surfaces at the commit as a
      constraint violation, not as an already-linked account. */
  lemma RawIdCheckMissesCollision(s: Store, p: Platform, dto: SignUpRequest, owner: int)
    requires ReachesLadder(s, dto)
    requires dto.providerType == Some("kakao") && dto.providerId == Some("007")
    requires SocialConnection(Some(owner), KAKAO, "7") in s.connections
    requires forall d :: d in s.connections ==> d.providerId != "007"
    ensures SignUp(s, p, dto) == (Err(DataIntegrityViolation), s)
  {
    ParseLongNotInjective();
    assert ToUpperCase("kakao") == "KAKAO";
    assert !Linked(s, KAKAO, "007");
    SignUpLinksKakao(s, p, dto, 7);
  }

  /** The failures `signUp` can raise: the four `ApiException`s of its
      checks and the database's refusal of a row. */
  lemma SignUpErrors(s: Store, p: Platform, dto: SignUpRequest)
    ensures SignUp(s, p, dto).0.Err? ==>
              SignUp(s, p, dto).0.error in {EmailAlreadyExistsException(), BadRequestException(Common(ILLEGAL_ARGUMENT)),
                                            InvalidProviderTypeException(), SocialAccountAlreadyLinkedException(),
                                            DataIntegrityViolation}
  {
    if !ExistsByEmail(s, dto.email) && PasswordFor(p, dto).Ok? {
      var m := NewMemberRow(s, dto, PasswordFor(p, dto).value);
      if CanInsert(s, m) {
        var saved := Insert(s, m);
        if HasText(dto.providerType) && HasText(dto.providerId) {
          var r := HandleSocialConnection(saved, p, dto, m);
          assert r.Err? ==> r.error in {InvalidProviderTypeException(), SocialAccountAlreadyLinkedException(),
                                        BadRequestException(Common(ILLEGAL_ARGUMENT))};
        }
      }
    }
  }

  /** `@NotBlank` trims only characters up to U+0020, while `hasText`
      skips every Unicode space: four ideographic spaces pass validation
      as a password and still fail the password branch. */
  lemma ValidPasswordCanLackText()
    ensures NotBlank(Some("　　　　"))
    ensures !HasText(Some("　　　　"))
  {
    var pw := "　　　　";
    assert TrimStart(pw) == pw;
    assert TrimEnd(pw) == pw;
  }

  /** Signing up keeps every guarantee of the store. */
  lemma SignUpPreservesValid(s: Store, p: Platform, dto: SignUpRequest)
    requires Valid(s)
    ensures Valid(SignUp(s, p, dto).1)
  {
    if SignUp(s, p, dto).0.Ok? {
      var password := PasswordFor(p, dto).value;
      var m := NewMemberRow(s, dto, password);
      var saved := Insert(s, m);
      InsertPreservesValid(s, m);
      var linked := LinkStep(saved, p, dto, m).value;
      FlushPreservesValid(saved, m, linked);
    }
  }

  lemma InsertPreservesValid(s: Store, m: Member)
    requires Valid(s) && CanInsert(s, m)
    requires m.id == Some(s.nextId) && m.socialConnections == []
    ensures Valid(Insert(s, m))
  {
    InsertKeepsIndex(s, m);
    InsertKeepsConnections(s, m);
  }

  lemma InsertKeepsIndex(s: Store, m: Member)
    requires Valid(s) && CanInsert(s, m)
    requires m.id == Some(s.nextId)
    ensures var s' := Insert(s, m);
            && (forall id :: id in s'.members ==>
                  && s'.members[id].id == Some(id) && id < s'.nextId
                  && FitsColumns(s'.members[id])
                  && s'.members[id].email.value in s'.emailIndex
                  && s'.emailIndex[s'.members[id].email.value] == id)
            && (forall e :: e in s'.emailIndex ==>
                  s'.emailIndex[e] in s'.members && s'.members[s'.emailIndex[e]].email == Some(e))
  {
    var s' := Insert(s, m);
    forall e | e in s'.emailIndex
      ensures s'.emailIndex[e] in s'.members && s'.members[s'.emailIndex[e]].email == Some(e)
    {
      if e != m.email.value {
        assert s.emailIndex[e] < s.nextId;
      }
    }
    forall id | id in s'.members
      ensures s'.members[id].email.value in s'.emailIndex && s'.emailIndex[s'.members[id].email.value] == id
    {
      if id != s.nextId {
        assert s.members[id].email.value != m.email.value;
      }
    }
  }

  lemma InsertKeepsConnections(s: Store, m: Member)
    requires Valid(s) && CanInsert(s, m)
    requires m.id == Some(s.nextId) && m.socialConnections == []
    ensures var s' := Insert(s, m);
            && (forall c :: c in s'.connections ==>
                  && ConnectionFitsColumns(c)
                  && c.member.value in s'.members
                  && c in s'.members[c.member.value].socialConnections)
            && (forall id, c :: id in s'.members && c in s'.members[id].socialConnections ==>
                  c in s'.connections && c.member == Some(id))
            && (forall c, d :: c in s'.connections && d in s'.connections && c.providerId == d.providerId ==> c == d)
  {
    var s' := Insert(s, m);
    forall c | c in s'.connections
      ensures c.member.value in s'.members && c in s'.members[c.member.value].socialConnections
    {
      assert c.member.value < s.nextId;
    }
  }

  lemma FlushPreservesValid(s: Store, m: Member, linked: Member)
    requires Valid(s) && m.id.Some? && m.id.value in s.members && s.members[m.id.value] == m
    requires m.socialConnections == []
    requires linked == m || exists n: Long :: linked == AddSocialConnection(m, KakaoConnection(m.id, n))
    requires CanFlush(s, linked)
    ensures Valid(Flush(s, linked))
  {
    if linked == m {
      assert (set c | c in linked.socialConnections) == {};
      assert Flush(s, linked) == s;
    } else {
      var n: Long :| linked == AddSocialConnection(m, KakaoConnection(m.id, n));
      var c := KakaoConnection(m.id, n);
      assert linked == m.(socialConnections := [c]);
      assert (set x | x in linked.socialConnections) == {c};
      FlushOnePreservesValid(s, m, c);
    }
  }

  /** The commit of a new member's single connection row. */
  lemma FlushOnePreservesValid(s: Store, m: Member, c: SocialConnection)
    requires Valid(s) && m.id.Some? && m.id.value in s.members && s.members[m.id.value] == m
    requires m.socialConnections == [] && c.member == m.id && ConnectionFitsColumns(c)
    requires forall d :: d in s.connections ==> d.providerId != c.providerId
    ensures Valid(s.(members := s.members[m.id.value := m.(socialConnections := [c])], connections := s.connections + {c}))
  {
    var id := m.id.value;
    var linked := m.(socialConnections := [c]);
    var s' := s.(members := s.members[id := linked], connections := s.connections + {c});
    forall x | x in s'.connections
      ensures x.member.value in s'.members && x in s'.members[x.member.value].socialConnections
    {
      if x != c {
        assert x.member.value != id;
      }
    }
    forall i, x | i in s'.members && x in s'.members[i].socialConnections
      ensures x in s'.connections && x.member == Some(i)
    {
    }
  }

  /** A request that passes validation, with a free email and a password
      encoding that fits its column, is accepted by the member INSERT. */
  lemma ValidSignUpInsertable(s: Store, p: Platform, dto: SignUpRequest, isEmail: string -> bool)
    requires ValidSignUp(dto, isEmail) && !ExistsByEmail(s, dto.email)
    requires |p.encode(dto.password.value)| <= 100
    requires PasswordFor(p, dto).Ok?
    ensures CanInsert(s, NewMemberRow(s, dto, PasswordFor(p, dto).value))
  {
    ValidSignUpFitsColumns(dto, isEmail, PasswordFor(p, dto).value);
  }

  // ---------------------------------------------------------------------
  // login
  // ---------------------------------------------------------------------

  /** `login`: looks the member up by email and never reads the password. */
  function Login(s: Store, p: Platform, dto: LoginRequest): Result<LoginResponse, Exception>
    requires Valid(s)
  {
    match FindByEmail(s, dto.email)
    case None => Err(NotFoundException(Common(USER_NOT_FOUND)))
    case Some(m) => Ok(CreateLoginResponse(p, m))
  }

  /** An unknown email is not found; a registered one logs in as its
      member, with `budgetSet` exactly when a budget is stored. */
  lemma LoginOutcome(s: Store, p: Platform, dto: LoginRequest)
    requires Valid(s)
    ensures !ExistsByEmail(s, dto.email) ==> Login(s, p, dto) == Err(NotFoundException(Common(USER_NOT_FOUND)))
    ensures ExistsByEmail(s, dto.email) ==>
              var id := s.emailIndex[dto.email.value];
              var r := Login(s, p, dto);
              && r.Ok? && r.value.userId == Some(id)
              && r.value.email == dto.email && r.value.name == s.members[id].name
              && (r.value.budgetSet <==> s.members[id].budget.Some?)
              && r.value.accessToken == p.createAccessToken(dto.email)
  {
  }

  /** Any password logs a registered email in. */
  lemma LoginIgnoresPassword(s: Store, p: Platform, email: Option<string>, pw1: Option<string>, pw2: Option<string>)
    requires Valid(s)
    ensures Login(s, p, LoginRequest(email, pw1)) == Login(s, p, LoginRequest(email, pw2))
  {
  }

  /** A plain sign-up with a free email and an accepted INSERT succeeds,
      and the new member can then log in under its email. */
  lemma SignUpThenLogin(s: Store, p: Platform, dto: SignUpRequest, anyPassword: Option<string>)
    requires Valid(s) && !ExistsByEmail(s, dto.email)
    requires !HasText(dto.providerId) && !HasText(dto.providerType) && HasText(dto.password)
    requires CanInsert(s, NewMemberRow(s, dto, Some(p.encode(dto.password.value))))
    ensures SignUp(s, p, dto).0.Ok?
    ensures Valid(SignUp(s, p, dto).1) &&
            Login(SignUp(s, p, dto).1, p, LoginRequest(dto.email, anyPassword)) == SignUp(s, p, dto).0
  {
    SignUpPreservesValid(s, p, dto);
    var s' := SignUp(s, p, dto).1;
    assert s'.members[s.nextId].email == dto.email;
    assert s'.emailIndex[dto.email.value] == s.nextId;
  }

  // ---------------------------------------------------------------------
  // setBudget
  // ---------------------------------------------------------------------

  /** `setBudget`, with the store after its transaction. */
  function SetBudget(s: Store, memberId: Long, dto: BudgetRequest): (r: (Result<(), Exception>, Store))
    ensures r.0.Err? ==> r.1 == s
  {
    if dto.amount.None? then (Err(NullPointer), s)
    else if dto.amount.value < 0 then (Err(BadRequestException(BudgetCannotBeNegative)), s)
    else if memberId !in s.members then (Err(NotFoundException(Common(USER_NOT_FOUND))), s)
    else (Ok(()), s.(members := s.members[memberId := UpdateBudget(s.members[memberId], dto.amount)]))
  }

  /** A negative amount fails before the lookup, whatever the id. */
  lemma SetBudgetNegative(s: Store, memberId: Long, dto: BudgetRequest)
    requires dto.amount.Some? && dto.amount.value < 0
    ensures SetBudget(s, memberId, dto) == (Err(BadRequestException(BudgetCannotBeNegative)), s)
  {
  }

  /** An unknown member fails after the amount check. */
  lemma SetBudgetUnknownMember(s: Store, memberId: Long, dto: BudgetRequest)
    requires dto.amount.Some? && dto.amount.value >= 0 && memberId !in s.members
    ensures SetBudget(s, memberId, dto) == (Err(NotFoundException(Common(USER_NOT_FOUND))), s)
  {
  }

  /** Any amount from zero up is stored as given on a known member; only
      that member's budget changes. */
  lemma SetBudgetStores(s: Store, memberId: Long, dto: BudgetRequest)
    requires dto.amount.Some? && dto.amount.value >= 0 && memberId in s.members
    ensures var (r, s') := SetBudget(s, memberId, dto);
            && r.Ok?
            && s'.members.Keys == s.members.Keys
            && s'.members[memberId].budget == dto.amount
            && s'.members[memberId].(budget := s.members[memberId].budget) == s.members[memberId]
            && (forall id :: id in s.members && id != memberId ==> s'.members[id] == s.members[id])
            && s'.emailIndex == s.emailIndex && s'.connections == s.connections && s'.nextId == s.nextId
  {
  }

  /** Setting the same amount twice is setting it once. */
  lemma SetBudgetIdempotent(s: Store, memberId: Long, dto: BudgetRequest)
    ensures var (r, s') := SetBudget(s, memberId, dto);
            SetBudget(s', memberId, dto) == (r, s')
  {
    var s' := SetBudget(s, memberId, dto).1;
    if SetBudget(s, memberId, dto).0.Ok? {
      assert UpdateBudget(s'.members[memberId], dto.amount) == s'.members[memberId];
      assert s'.members[memberId := s'.members[memberId]] == s'.members;
    }
  }

  /** Setting a budget keeps every guarantee of the store. */
  lemma SetBudgetPreservesValid(s: Store, memberId: Long, dto: BudgetRequest)
    requires Valid(s)
    ensures Valid(SetBudget(s, memberId, dto).1)
  {
    if SetBudget(s, memberId, dto).0.Ok? {
      ReplaceBudgetKeepsValid(s, memberId, UpdateBudget(s.members[memberId], dto.amount));
    }
  }

  /** A member row whose budget alone changed keeps the store valid. */
  lemma ReplaceBudgetKeepsValid(s: Store, id: int, m: Member)
    requires Valid(s) && id in s.members && m.(budget := s.members[id].budget) == s.members[id]
    ensures Valid(s.(members := s.members[id := m]))
  {
    var s' := s.(members := s.members[id := m]);
    forall i | i in s'.members
      ensures s'.members[i].id == s.members[i].id && s'.members[i].email == s.members[i].email
      ensures FitsColumns(s'.members[i])
      ensures s'.members[i].socialConnections == s.members[i].socialConnections
    {
    }
    forall e | e in s'.emailIndex
      ensures s'.emailIndex[e] in s'.members && s'.members[s'.emailIndex[e]].email == Some(e)
    {
    }
    forall c | c in s'.connections
      ensures c.member.value in s'.members && c in s'.members[c.member.value].socialConnections
    {
    }
  }

  /** A request that passes validation never takes the negative branch. */
  lemma ValidBudgetNotNegative(s: Store, memberId: Long, dto: BudgetRequest)
    requires ValidBudget(dto)
    ensures SetBudget(s, memberId, dto).0 != Err(BadRequestException(BudgetCannotBeNegative))
    ensures memberId in s.members <==> SetBudget(s, memberId, dto).0.Ok?
  {
  }

  /** Zero is refused by validation but accepted by the service, which
      refuses negatives only. */
  lemma ZeroAmountAcceptedByService(s: Store, memberId: Long)
    requires memberId in s.members
    ensures !ValidBudget(BudgetRequest(Some(0)))
    ensures SetBudget(s, memberId, BudgetRequest(Some(0))).0.Ok?
    ensures SetBudget(s, memberId, BudgetRequest(Some(0))).1.members[memberId].budget == Some(0)
  {
  }

  /** After a budget is set, the member's login reports it as set. */
  lemma BudgetThenLoginReportsSet(s: Store, p: Platform, memberId: Long, dto: BudgetRequest)
    requires Valid(s) && ValidBudget(dto) && memberId in s.members
    ensures var s' := SetBudget(s, memberId, dto).1;
            Valid(s') &&
            Login(s', p, LoginRequest(s.members[memberId].email, None)).Ok? &&
            Login(s', p, LoginRequest(s.members[memberId].email, None)).value.budgetSet
  {
    SetBudgetPreservesValid(s, memberId, dto);
    var s' := SetBudget(s, memberId, dto).1;
    assert s'.emailIndex[s.members[memberId].email.value] == memberId;
  }

  // ---------------------------------------------------------------------
  // loadUserByUsername
  // ---------------------------------------------------------------------

  /** Spring Security's `User`: username, password, authorities. */
  datatype UserDetails = UserDetails(username: string, password: string, authorities: seq<string>)

  /** `loadUserByUsername`: a read-only lookup. Spring's `User` refuses an
      empty username with an `IllegalArgumentException`. */
  function LoadUserByUsername(s: Store, email: Option<string>): Result<UserDetails, Exception>
    requires Valid(s)
  {
    match FindByEmail(s, email)
    case None => Err(UsernameNotFound(Some("해당 이메일을 가진 사용자를 찾을 수 없습니다: " + StringValueOf(email))))
    case Some(m) =>
      if m.email.value == "" then Err(IllegalArgument(Some("Cannot pass null or empty values to constructor")))
      else Ok(UserDetails(m.email.value, if m.password.Some? then m.password.value else "", ["ROLE_USER"]))
  }

  /** An unknown email is not found; a registered one yields its email as
      the username, the stored hash or "" as the password, and the single
      authority `ROLE_USER`. */
  lemma LoadUserOutcome(s: Store, email: Option<string>)
    requires Valid(s)
    ensures !ExistsByEmail(s, email) ==> LoadUserByUsername(s, email).Err? && LoadUserByUsername(s, email).error.UsernameNotFound?
    ensures ExistsByEmail(s, email) && email.value != "" ==>
              var m := s.members[s.emailIndex[email.value]];
              LoadUserByUsername(s, email) ==
              Ok(UserDetails(email.value, if m.password.None? then "" else m.password.value, ["ROLE_USER"]))
  {
  }
}
