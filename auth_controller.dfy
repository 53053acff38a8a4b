/** The HTTP layer of the auth endpoints: it maps each service outcome to a
    status and a body. */
module AuthController {
  import opened Wrappers
  import opened TokenProvider
  import opened AuthLoginResponse
  import opened ReissueTokenResponse
  import opened AuthService

  datatype HttpResponse<B> = HttpResponse(status: int, body: B)

  const HTTP_OK: int := 200
  const HTTP_UNAUTHORIZED: int := 401
  const HTTP_INTERNAL_SERVER_ERROR: int := 500

  /** POST /sessions: 200 exactly for a non-null successful result, else 401;
      the body is the service result unchanged. */
  function LoginStatus(res: Option<AuthLoginResponseDTO>): (r: HttpResponse<Option<AuthLoginResponseDTO>>)
    ensures r.body == res
    ensures r.status == HTTP_OK <==> res.Some? && res.value.success
    ensures r.status != HTTP_OK ==> r.status == HTTP_UNAUTHORIZED
  {
    if res.Some? && res.value.success then HttpResponse(HTTP_OK, res)
    else HttpResponse(HTTP_UNAUTHORIZED, res)
  }

  /** POST /tokens: the same 200/401 rule on `success`. */
  function ReissueStatus(res: Option<ReissueTokenResponseDTO>): (r: HttpResponse<Option<ReissueTokenResponseDTO>>)
    ensures r.body == res
    ensures r.status == HTTP_OK <==> res.Some? && res.value.success
    ensures r.status != HTTP_OK ==> r.status == HTTP_UNAUTHORIZED
  {
    if res.Some? && res.value.success then HttpResponse(HTTP_OK, res)
    else HttpResponse(HTTP_UNAUTHORIZED, res)
  }

  /** POST /tokens/validate: a null result is 500 with -1; VALID is 200 with
      1; EXPIRED and INVALID are both 200 with 2. */
  function ValidateStatus(res: Option<ValidTokenResponseDTO>): (r: HttpResponse<int>)
    ensures r.status == HTTP_OK <==> res.Some?
    ensures r.status != HTTP_OK ==> r.status == HTTP_INTERNAL_SERVER_ERROR
    ensures r.body == -1 <==> res.None?
    ensures r.body == 1 <==> res.Some? && res.value.statusNum == VALID
    ensures r.body == 2 <==> res.Some? && res.value.statusNum != VALID
  {
    match res
    case None => HttpResponse(HTTP_INTERNAL_SERVER_ERROR, -1)
    case Some(v) =>
      match v.statusNum
      case VALID => HttpResponse(HTTP_OK, 1)
      case EXPIRED => HttpResponse(HTTP_OK, 2)
      case INVALID => HttpResponse(HTTP_OK, 2)
  }

  /** The login endpoint over the service. */
  function LoginEndpoint(p: ProviderState, authenticate: Authenticator, now: int, req: LoginRequest): HttpResponse<Option<AuthLoginResponseDTO>>
  {
    LoginStatus(Some(AuthService.Login(p, authenticate, now, req)))
  }

  /** The reissue endpoint over the service. */
  function ReissueEndpoint(p: ProviderState, now: int, refreshToken: Option<Token>): HttpResponse<Option<ReissueTokenResponseDTO>>
  {
    ReissueStatus(Some(ReissueTokens(p, now, refreshToken)))
  }

  /** The validate endpoint over the service. */
  function ValidateEndpoint(p: ProviderState, now: int, token: Option<Token>): HttpResponse<int>
  {
    ValidateStatus(Some(ValidToken(p, now, token)))
  }

  /** Login answers 200 exactly when the credentials authenticate, and 401
      otherwise; the service always yields a result, so 500 never occurs. */
  lemma LoginEndpointStatus(p: ProviderState, authenticate: Authenticator, now: int, req: LoginRequest)
    ensures LoginEndpoint(p, authenticate, now, req).status ==
      if authenticate(req.userId, req.password).Some? then HTTP_OK else HTTP_UNAUTHORIZED
  {
  }

  /** Reissue answers 200 exactly for a refresh token VALID now, 401 otherwise. */
  lemma ReissueEndpointStatus(p: ProviderState, now: int, refreshToken: Option<Token>)
    ensures ReissueEndpoint(p, now, refreshToken).status ==
      if Validate(p, now, refreshToken) == VALID then HTTP_OK else HTTP_UNAUTHORIZED
  {
  }

  /** Validate always answers 200, with 1 exactly for a token signed with the
      provider's key and not expired; an expired token and a forged or
      malformed one get the same answer. */
  lemma ValidateEndpointAnswers(p: ProviderState, now: int, token: Option<Token>, other: Option<Token>)
    ensures ValidateEndpoint(p, now, token).status == HTTP_OK
    ensures ValidateEndpoint(p, now, token).body == 1 <==> Verifies(p, token) && now < token.value.claims.exp
    ensures ValidateEndpoint(p, now, token).body != 1 ==> ValidateEndpoint(p, now, token).body == 2
    ensures Validate(p, now, token) == EXPIRED && Validate(p, now, other) == INVALID ==>
      ValidateEndpoint(p, now, token) == ValidateEndpoint(p, now, other)
  {
  }
}
