/**
 * The persistent entities: `Member`, `SocialConnection` with its Kakao
 * subclass, and the `ProviderType` enum. Both entities are records here;
 * the owner of a connection is named by the owner's id.
 */
module Entities {
  import opened Wrappers
  import opened JavaLang
  import opened Dto

  /** `ProviderType`: `KAKAO` and the enum's other constants, by name. */
  datatype ProviderType = KAKAO | Other(constant: string)
  {
    /** `name()`. */
    function Name(): string {
      if KAKAO? then "KAKAO" else constant
    }
  }

  /** `ProviderType.valueOf(name)`: the constant of that exact name, where
      `otherNames` are the names of the constants besides `KAKAO`; `None`
      stands for the `IllegalArgumentException` of an unknown name. */
  function ProviderValueOf(name: string, otherNames: set<string>): (r: Option<ProviderType>)
    ensures r.Some? <==> name == "KAKAO" || name in otherNames
    ensures r.Some? ==> r.value.Name() == name
    ensures r == Some(KAKAO) <==> name == "KAKAO"
  {
    if name == "KAKAO" then Some(KAKAO)
    else if name in otherNames then Some(Other(name))
    else None
  }

  /** The sign-up's `ProviderType.valueOf(providerType.toUpperCase())`
      picks `KAKAO` for "kakao" written in any mix of cases and for nothing
      else, and upper-casing a second time changes nothing. */
  lemma KakaoNameIgnoresCase(t: string, otherNames: set<string>)
    ensures ProviderValueOf(ToUpperCase(t), otherNames) == Some(KAKAO) <==>
            |t| == 5 && forall i :: 0 <= i < 5 ==> t[i] == "kakao"[i] || t[i] == "KAKAO"[i]
    ensures ToUpperCase(ToUpperCase(t)) == ToUpperCase(t)
  {
    var u := ToUpperCase(t);
    if |t| == 5 {
      forall i | 0 <= i < 5
        ensures u[i] == "KAKAO"[i] <==> t[i] == "kakao"[i] || t[i] == "KAKAO"[i]
      {
        assert u[i] == UpperChar(t[i]);
      }
      if u == "KAKAO" {
        assert forall i :: 0 <= i < 5 ==> u[i] == "KAKAO"[i];
      }
    }
    assert ToUpperCase(u) == u;
  }

  /** A row of `social_connections`. `member` is the owner's id (`None`
      while the owner has none). */
  datatype SocialConnection = SocialConnection(member: Option<int>, provider: ProviderType, providerId: string)

  /** `setMember`: only the owner changes. */
  function SetMember(c: SocialConnection, member: Option<int>): (r: SocialConnection)
    ensures r.member == member && r.provider == c.provider && r.providerId == c.providerId
  {
    c.(member := member)
  }

  /** The columns of `social_connections`: an owner, a provider name of at
      most 20 characters, a provider id of at most 255. */
  predicate ConnectionFitsColumns(c: SocialConnection) {
    c.member.Some? && |c.provider.Name()| <= 20 && |c.providerId| <= 255
  }

  /** `new KakaoConnection(member, kakaoProviderId)`: provider `KAKAO` and
      the id rendered by `String.valueOf`, which parses back to the id. */
  function KakaoConnection(member: Option<int>, kakaoProviderId: Long): (c: SocialConnection)
    ensures c.member == member && c.provider == KAKAO
    ensures ParseLong(c.providerId) == Some(kakaoProviderId)
    ensures 0 < |c.providerId| <= 20
  {
    LongRoundTrip(kakaoProviderId);
    LongToStringShort(kakaoProviderId);
    SocialConnection(member, KAKAO, LongToString(kakaoProviderId))
  }

  /** The rendering of a `long` is at most 20 characters: a sign and 19 digits. */
  lemma LongToStringShort(n: Long)
    ensures |LongToString(n)| <= 20
  {
    var m: nat := if n < 0 then -(n as int) else n as int;
    Pow10Nineteen();
    NatToStringLength(m, 19);
  }

  lemma {:induction false} NatToStringLength(n: nat, k: nat)
    requires k >= 1 && n < Pow10(k)
    ensures |NatToString(n)| <= k
    decreases k
  {
    if n >= 10 {
      NatToStringLength(n / 10, k - 1);
    }
  }

  function Pow10(k: nat): nat {
    if k == 0 then 1 else 10 * Pow10(k - 1)
  }

  lemma Pow10Nineteen()
    ensures Pow10(19) == 10_000_000_000_000_000_000
  {
    assert Pow10(1) == 10;
    assert Pow10(2) == 100;
    assert Pow10(3) == 1000;
    assert Pow10(4) == 10000;
    assert Pow10(5) == 100000;
    assert Pow10(6) == 1000000;
    assert Pow10(7) == 10000000;
    assert Pow10(8) == 100000000;
    assert Pow10(9) == 1000000000;
    assert Pow10(10) == 10000000000;
    assert Pow10(11) == 100000000000;
    assert Pow10(12) == 1000000000000;
    assert Pow10(13) == 10000000000000;
    assert Pow10(14) == 100000000000000;
    assert Pow10(15) == 1000000000000000;
    assert Pow10(16) == 10000000000000000;
    assert Pow10(17) == 100000000000000000;
    assert Pow10(18) == 1000000000000000000;
    assert Pow10(19) == 10000000000000000000;
  }

  /** A `members` row, or a `Member` not yet saved (`id` is `None`). */
  datatype Member = Member(
    id: Option<int>,
    email: Option<string>,
    password: Option<string>,
    name: Option<string>,
    budget: Option<Long>,
    socialConnections: seq<SocialConnection>)

  /** The columns of `members`: an email of at most 50 characters, a
      password of at most 100 if any, a name of at most 30. */
  predicate FitsColumns(m: Member) {
    && m.email.Some? && |m.email.value| <= 50
    && (m.password.Some? ==> |m.password.value| <= 100)
    && m.name.Some? && |m.name.value| <= 30
  }

  /** `Member.createMember`: email and name from the request, the given
      password, and no id, budget or connection yet. */
  function CreateMember(dto: SignUpRequest, encodedPassword: Option<string>): (m: Member)
    ensures m.id.None? && m.budget.None? && m.socialConnections == []
    ensures m.email == dto.email && m.name == dto.name && m.password == encodedPassword
  {
    Member(None, dto.email, encodedPassword, dto.name, None, [])
  }

  /** A request that passes `@Valid` yields a member whose email and name
      fit their columns; the password fits when its encoding does. */
  lemma ValidSignUpFitsColumns(dto: SignUpRequest, isEmail: string -> bool, encodedPassword: Option<string>)
    requires ValidSignUp(dto, isEmail)
    requires encodedPassword.Some? ==> |encodedPassword.value| <= 100
    ensures FitsColumns(CreateMember(dto, encodedPassword))
  {
  }

  /** `addSocialConnection`: the connection is appended and its owner is
      set to this member; nothing else of the member changes. */
  function AddSocialConnection(m: Member, c: SocialConnection): (r: Member)
    ensures |r.socialConnections| == |m.socialConnections| + 1
    ensures r.socialConnections[..|m.socialConnections|] == m.socialConnections
    ensures r.socialConnections[|m.socialConnections|] == SetMember(c, m.id)
    ensures r.(socialConnections := m.socialConnections) == m
  {
    var owned := if c.member != m.id then SetMember(c, m.id) else c;
    m.(socialConnections := m.socialConnections + [owned])
  }

  /** `updateBudget`: the budget is replaced, and nothing else. */
  function UpdateBudget(m: Member, budget: Option<Long>): (r: Member)
    ensures r.budget == budget && r.(budget := m.budget) == m
  {
    m.(budget := budget)
  }

  /** `updateName`: the name is replaced, and nothing else. */
  function UpdateName(m: Member, name: Option<string>): (r: Member)
    ensures r.name == name && r.(name := m.name) == m
  {
    m.(name := name)
  }
}
