/** The auth orchestrator: login, token reissue and token validation,
    composing an authenticator and the token codec. `now` is the instant of
    the call, in milliseconds. */
module AuthService {
  import opened Wrappers
  import opened TokenProvider
  import opened CustomUserDetails
  import opened AuthLoginResponse
  import opened ReissueTokenResponse

  const HOUR_MS: int := 3_600_000
  const DAY_MS: int := 86_400_000

  /** The lifetimes fixed at each call site. */
  const LOGIN_ACCESS_TTL: int := 20 * HOUR_MS
  const REISSUE_ACCESS_TTL: int := 20 * SECOND_MS
  const REFRESH_TTL: int := 2 * DAY_MS

  const LOGIN_FAILURE_MESSAGE: string := "아이디 또는 비밀번호가 올바르지 않습니다."

  /** The login failure message names the login id and the password together,
      without saying which of the two was wrong. */
  lemma FailureMessageNamesBoth()
    ensures LOGIN_FAILURE_MESSAGE[..11] == "아이디 또는 비밀번호"
  {
  }

  /** The login request. */
  datatype LoginRequest = LoginRequest(userId: string, password: string)

  /** The authentication manager: the principal for a login id and raw
      password, or `None` when it throws an authentication exception. */
  type Authenticator = (string, string) -> Option<UserDetails>

  /** The result of `validToken`. */
  datatype ValidTokenResponseDTO = ValidTokenResponseDTO(statusNum: TokenStatus)

  /** `createToken(userDetails, ttl)`: the principal's login id as subject,
      its id and role, and its username as the `userName` claim. */
  function CreateTokenForPrincipal(p: ProviderState, now: int, d: UserDetails, ttl: int): (t: Token)
    ensures Verifies(p, Some(t)) && t.claims.exp == NumericDate(now + ttl)
    ensures forall later :: later < t.claims.exp ==>
      Parse(p, later, Some(t)) == Ok(TokenClaims(d.userId, d.id, GetRole(d), d.userId, t.claims.exp))
  {
    GenerateToken(p, now, d.userId, d.id, GetRole(d), GetUsername(d), ttl)
  }

  /** `createToken(claims, ttl)`: the subject, id, role and userName of
      parsed claims. */
  function CreateTokenFromClaims(p: ProviderState, now: int, c: TokenClaims, ttl: int): (t: Token)
    ensures Verifies(p, Some(t)) && t.claims.exp == NumericDate(now + ttl)
    ensures forall later :: later < t.claims.exp ==>
      Parse(p, later, Some(t)) == Ok(c.(exp := t.claims.exp))
  {
    GenerateToken(p, now, c.userId, c.id, c.role, c.userName, ttl)
  }

  /** The minted token is VALID at issuance, and parsing it gives back the
      principal's login id (as subject and as userName), id and role, with
      the expiry `now + ttl` in whole seconds. */
  lemma PrincipalTokenClaims(p: ProviderState, now: int, d: UserDetails, ttl: int)
    requires SECOND_MS <= ttl
    ensures Validate(p, now, Some(CreateTokenForPrincipal(p, now, d, ttl))) == VALID
    ensures Parse(p, now, Some(CreateTokenForPrincipal(p, now, d, ttl)))
      == Ok(TokenClaims(d.userId, d.id, GetRole(d), d.userId, NumericDate(now + ttl)))
  {
  }

  /** `login`: on authentication a success with the principal's login id for
      both userId and userName and two tokens VALID now, carrying the
      principal's claims, with lifetimes of 20 hours and 2 days; on any
      authentication failure the fixed message and no user and no tokens. */
  function Login(p: ProviderState, authenticate: Authenticator, now: int, req: LoginRequest): (r: AuthLoginResponseDTO)
    ensures r.success <==> authenticate(req.userId, req.password).Some?
    ensures authenticate(req.userId, req.password).None? ==>
      && r.message == Some(LOGIN_FAILURE_MESSAGE)
      && r.userId.None? && r.userName.None?
      && r.accessToken.None? && r.refreshToken.None?
    ensures authenticate(req.userId, req.password).Some? ==>
      var d := authenticate(req.userId, req.password).value;
      && r.userId == Some(d.userId) && r.userName == Some(d.userId)
      && r.message.None?
      && Validate(p, now, r.accessToken) == VALID
      && Validate(p, now, r.refreshToken) == VALID
      && Parse(p, now, r.accessToken) == Ok(TokenClaims(d.userId, d.id, GetRole(d), d.userId, NumericDate(now + LOGIN_ACCESS_TTL)))
      && Parse(p, now, r.refreshToken) == Ok(TokenClaims(d.userId, d.id, GetRole(d), d.userId, NumericDate(now + REFRESH_TTL)))
  {
    match authenticate(req.userId, req.password)
    case None => AuthLoginResponse.Failure(LOGIN_FAILURE_MESSAGE)
    case Some(d) =>
      var accessToken := CreateTokenForPrincipal(p, now, d, LOGIN_ACCESS_TTL);
      var refreshToken := CreateTokenForPrincipal(p, now, d, REFRESH_TTL);
      PrincipalTokenClaims(p, now, d, LOGIN_ACCESS_TTL);
      PrincipalTokenClaims(p, now, d, REFRESH_TTL);
      AuthLoginResponse.Success(d.userId, GetUsername(d), accessToken, refreshToken)
  }

  /** `validToken`: the codec's status, unchanged. */
  function ValidToken(p: ProviderState, now: int, token: Option<Token>): (r: ValidTokenResponseDTO)
    ensures r.statusNum == VALID <==> Verifies(p, token) && now < token.value.claims.exp
    ensures r.statusNum == EXPIRED <==> Verifies(p, token) && token.value.claims.exp <= now
  {
    ValidTokenResponseDTO(Validate(p, now, token))
  }

  /** Same subject, id, role and userName. */
  predicate SameIdentity(a: TokenClaims, b: TokenClaims)
  {
    a.userId == b.userId && a.id == b.id && a.role == b.role && a.userName == b.userName
  }

  /** `reissueTokens`: a null refresh token or one that is not VALID gives a
      failure with statusNum -1 and no tokens. A VALID one gives a success
      with statusNum left at 0 and two new tokens, VALID now, carrying the
      old token's subject, id, role and userName, with lifetimes of 20 seconds
      and 2 days. */
  function ReissueTokens(p: ProviderState, now: int, refreshToken: Option<Token>): (r: ReissueTokenResponseDTO)
    ensures r.success <==> Validate(p, now, refreshToken) == VALID
    ensures !r.success ==> r.statusNum == -1 && r.accessToken.None? && r.refreshToken.None?
    ensures r.success ==>
      var given := Parse(p, now, refreshToken).value;
      && r.statusNum == 0
      && Validate(p, now, r.accessToken) == VALID
      && Validate(p, now, r.refreshToken) == VALID
      && Parse(p, now, r.accessToken) == Ok(given.(exp := NumericDate(now + REISSUE_ACCESS_TTL)))
      && Parse(p, now, r.refreshToken) == Ok(given.(exp := NumericDate(now + REFRESH_TTL)))
  {
    if refreshToken.None? || ValidToken(p, now, refreshToken).statusNum != VALID then
      ReissueTokenResponse.EMPTY.(success := false, statusNum := -1)
    else
      var claims := Parse(p, now, refreshToken).value;
      var accessToken := CreateTokenFromClaims(p, now, claims, REISSUE_ACCESS_TTL);
      var newRefreshToken := CreateTokenFromClaims(p, now, claims, REFRESH_TTL);
      ReissueTokenResponse.EMPTY.(success := true, accessToken := Some(accessToken), refreshToken := Some(newRefreshToken))
  }

  /** Reissue after reissue, each time handing in the refresh token the
      previous reissue returned. */
  function ReissueChain(p: ProviderState, refreshToken: Option<Token>, times: seq<int>): (rs: seq<ReissueTokenResponseDTO>)
    decreases |times|
  {
    if times == [] then []
    else
      var r := ReissueTokens(p, times[0], refreshToken);
      [r] + ReissueChain(p, r.refreshToken, times[1..])
  }

  /** Each reissue comes before the refresh token from the previous one,
      2 days long to the whole second, runs out. */
  ghost predicate WithinRefreshWindow(times: seq<int>)
  {
    forall i :: 0 < i < |times| ==> times[i] < NumericDate(times[i - 1] + REFRESH_TTL)
  }

  /** Sliding-window reissue: starting from a refresh token VALID at the first
      reissue, and reissuing within each refresh token's lifetime, every
      reissue succeeds and every token handed out carries the original
      subject, id, role and userName. */
  lemma {:induction false} SlidingReissue(p: ProviderState, refreshToken: Option<Token>, times: seq<int>)
    requires |times| > 0 ==> Validate(p, times[0], refreshToken) == VALID
    requires WithinRefreshWindow(times)
    decreases |times|
    ensures |ReissueChain(p, refreshToken, times)| == |times|
    ensures forall i :: 0 <= i < |times| ==>
      var r := ReissueChain(p, refreshToken, times)[i];
      && r.success
      && Parse(p, times[i], r.accessToken).Ok?
      && Parse(p, times[i], r.refreshToken).Ok?
      && SameIdentity(Parse(p, times[i], r.accessToken).value, Parse(p, times[0], refreshToken).value)
      && SameIdentity(Parse(p, times[i], r.refreshToken).value, Parse(p, times[0], refreshToken).value)
  {
    if times != [] {
      var r := ReissueTokens(p, times[0], refreshToken);
      var tail := times[1..];
      if tail != [] {
        assert tail[0] < NumericDate(times[0] + REFRESH_TTL);
        assert Validate(p, tail[0], r.refreshToken) == VALID;
      }
      assert WithinRefreshWindow(tail) by {
        forall i | 0 < i < |tail| ensures tail[i] < NumericDate(tail[i - 1] + REFRESH_TTL) {
          assert tail[i] == times[i + 1] && tail[i - 1] == times[i];
        }
      }
      SlidingReissue(p, r.refreshToken, tail);
      var rest := ReissueChain(p, r.refreshToken, tail);
      assert ReissueChain(p, refreshToken, times) == [r] + rest;
      forall i | 0 < i < |times|
        ensures SameIdentity(Parse(p, times[i], rest[i - 1].accessToken).value, Parse(p, times[0], refreshToken).value)
        ensures SameIdentity(Parse(p, times[i], rest[i - 1].refreshToken).value, Parse(p, times[0], refreshToken).value)
      {
        assert times[i] == tail[i - 1];
      }
    }
  }

  /** The refresh token handed in stays VALID after a reissue: nothing
      revokes it, so until its own expiry it can be reissued again. */
  lemma OldRefreshTokenStillUsable(p: ProviderState, now: int, later: int, refreshToken: Option<Token>)
    requires ReissueTokens(p, now, refreshToken).success
    requires later < refreshToken.value.claims.exp
    ensures ReissueTokens(p, later, refreshToken).success
  {
  }
}
