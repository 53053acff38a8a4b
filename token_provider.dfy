/** The token codec: issues and checks signed, time-bound JSON Web Tokens
    (RFC 7519, JWS compact form with HS512).

    Time is a count of milliseconds since the epoch. The JWS serialisation and
    the HMAC-SHA-512 computation are abstracted: a signed token records the key
    it was signed with, and its signature verifies under a key exactly when
    that is the same key. Anything that is not such a token is `Junk`. */
module TokenProvider {
  import opened Wrappers
  import opened Longs

  type Bytes = seq<bv8>

  /** The key `Keys.hmacShaKeyFor` builds from the key bytes. */
  datatype SigningKey = HmacShaKey(material: Bytes)

  /** Configured issuer and signing secret. */
  datatype JwtProperties = JwtProperties(issuer: string, secret: string)

  /** What an initialised provider signs and verifies with: `State()` of a
      `TokenProvider` after `Init`. The token operations below take it as
      their first parameter in place of the provider object. */
  datatype ProviderState = ProviderState(issuer: string, key: SigningKey)

  const JWT_TYPE: string := "JWT"
  const SECOND_MS: int := 1000

  /** The registered and private claims a generated token carries. */
  datatype Claims = Claims(iss: string, iat: int, exp: int, sub: string, id: Option<Long>, role: string, userName: string)

  /** A token string: either a compact JWS (header `typ`, claims, signing key)
      or any other text. */
  datatype Token = Signed(typ: string, claims: Claims, key: SigningKey) | Junk(text: string)

  datatype TokenStatus = VALID | EXPIRED | INVALID

  /** The claims handed to callers of `parse`. */
  datatype TokenClaims = TokenClaims(userId: string, id: Option<Long>, role: string, userName: string, exp: int)

  /** The exceptions the JWT parser throws: ExpiredJwtException, a signature
      or format JwtException, and IllegalArgumentException for a null or empty string. */
  datatype JwtError = ExpiredJwt | SignatureMismatch | MalformedJwt | IllegalArgument

  /** A JWT NumericDate keeps whole seconds: the milliseconds are divided by
      1000 with Java's truncating division and multiplied back when read. */
  function NumericDate(ms: int): (r: int)
    ensures r % SECOND_MS == 0
    ensures ms - SECOND_MS < r < ms + SECOND_MS
    ensures 0 <= ms ==> 0 <= r <= ms
    ensures ms < 0 ==> ms <= r <= 0
  {
    if 0 <= ms then ms / SECOND_MS * SECOND_MS else -((-ms) / SECOND_MS * SECOND_MS)
  }

  /** The provider object: `init` derives the signing key once from the secret. */
  class TokenProvider {
    const props: JwtProperties
    var secretKey: Option<SigningKey>

    constructor (props: JwtProperties)
      ensures this.props == props && secretKey.None?
    {
      this.props := props;
      secretKey := None;
    }

    /** `init`: the key bytes are the Base64 decoding of the secret when it
        decodes, otherwise its UTF-8 bytes. `base64Decode` stands for
        `Base64.getDecoder().decode` (`None` when it throws) and `utf8` for
        `getBytes(UTF_8)`. */
    method Init(base64Decode: string -> Option<Bytes>, utf8: string -> Bytes)
      modifies this
      ensures base64Decode(props.secret).Some? ==> secretKey == Some(HmacShaKey(base64Decode(props.secret).value))
      ensures base64Decode(props.secret).None? ==> secretKey == Some(HmacShaKey(utf8(props.secret)))
    {
      var keyBytes: Bytes;
      var decoded := base64Decode(props.secret);
      if decoded.Some? {
        keyBytes := decoded.value;
      } else {
        keyBytes := utf8(props.secret);
      }
      secretKey := Some(HmacShaKey(keyBytes));
    }

    /** The issuer and key the initialised provider works with. */
    function State(): (s: ProviderState)
      reads this
      requires secretKey.Some?
      ensures s.issuer == props.issuer && Some(s.key) == secretKey
    {
      ProviderState(props.issuer, secretKey.value)
    }
  }

  /** `generateToken`: header `typ: JWT`, the configured issuer, `iat = now`,
      `exp = now + ttl`, the subject and the three private claims, signed with
      the provider's key. */
  function GenerateToken(p: ProviderState, now: int, userId: string, id: Option<Long>, role: string, userName: string, ttl: int): (t: Token)
    ensures Verifies(p, Some(t))
    ensures t.claims.iat == NumericDate(now) && t.claims.exp == NumericDate(now + ttl)
    ensures t.claims.sub == userId && t.claims.id == id && t.claims.role == role && t.claims.userName == userName
  {
    Signed(JWT_TYPE, Claims(p.issuer, NumericDate(now), NumericDate(now + ttl), userId, id, role, userName), p.key)
  }

  /** The token is a compact JWS whose signature verifies under the provider's key. */
  predicate Verifies(p: ProviderState, token: Option<Token>)
  {
    token.Some? && token.value.Signed? && token.value.key == p.key
  }

  /** `parseClaims`: the signature is checked before the expiry; a token is
      expired from the instant of its `exp` claim on. */
  function ParseClaims(p: ProviderState, now: int, token: Option<Token>): (r: Result<Claims, JwtError>)
    ensures r.Ok? <==> Verifies(p, token) && now < token.value.claims.exp
    ensures r.Ok? ==> r.value == token.value.claims
    ensures r == Err(ExpiredJwt) <==> Verifies(p, token) && token.value.claims.exp <= now
    ensures token.Some? && token.value.Signed? && token.value.key != p.key ==> r == Err(SignatureMismatch)
    ensures token.None? || token == Some(Junk("")) ==> r == Err(IllegalArgument)
  {
    match token
    case None => Err(IllegalArgument)
    case Some(Junk(text)) => if text == "" then Err(IllegalArgument) else Err(MalformedJwt)
    case Some(Signed(_, c, k)) =>
      if k != p.key then Err(SignatureMismatch)
      else if now < c.exp then Ok(c)
      else Err(ExpiredJwt)
  }

  /** `validate`: total; VALID exactly for a token signed with this key and
      not yet expired, EXPIRED for one signed with this key and past its
      expiry, INVALID for everything else. Issuer and `typ` play no part. */
  function Validate(p: ProviderState, now: int, token: Option<Token>): (s: TokenStatus)
    ensures s == VALID <==> Verifies(p, token) && now < token.value.claims.exp
    ensures s == EXPIRED <==> Verifies(p, token) && token.value.claims.exp <= now
    ensures s == INVALID <==> !Verifies(p, token)
  {
    match ParseClaims(p, now, token)
    case Ok(_) => VALID
    case Err(ExpiredJwt) => EXPIRED
    case Err(_) => INVALID
  }

  /** `parse`: succeeds exactly on the tokens `validate` calls VALID, with the
      subject, id, role, userName and expiry they carry; otherwise it lets the
      parser's exception escape, ExpiredJwt exactly for the EXPIRED ones. */
  function Parse(p: ProviderState, now: int, token: Option<Token>): (r: Result<TokenClaims, JwtError>)
    ensures r.Ok? <==> Validate(p, now, token) == VALID
    ensures r.Err? ==> (r.error == ExpiredJwt <==> Validate(p, now, token) == EXPIRED)
    ensures r.Ok? ==> var c := token.value.claims;
      r.value == TokenClaims(c.sub, c.id, c.role, c.userName, c.exp)
  {
    match ParseClaims(p, now, token)
    case Ok(c) => Ok(TokenClaims(c.sub, c.id, c.role, c.userName, c.exp))
    case Err(e) => Err(e)
  }

  /** A generated token carries exactly what it was given: signed with the
      provider's key, `typ` JWT, the configured issuer, the subject and private
      claims unchanged, `iat = now` and `exp = now + ttl` at whole seconds. */
  lemma GeneratedTokenContents(p: ProviderState, now: int, userId: string, id: Option<Long>, role: string, userName: string, ttl: int)
    ensures var t := GenerateToken(p, now, userId, id, role, userName, ttl);
      && t.Signed? && t.key == p.key && t.typ == JWT_TYPE
      && t.claims == Claims(p.issuer, NumericDate(now), NumericDate(now + ttl), userId, id, role, userName)
  {
  }

  /** Round trip: parsing a generated token at any time before its expiry
      gives back the claims it was generated from; afterwards it throws
      ExpiredJwt. */
  lemma ParseGenerated(p: ProviderState, now: int, later: int, userId: string, id: Option<Long>, role: string, userName: string, ttl: int)
    ensures Parse(p, later, Some(GenerateToken(p, now, userId, id, role, userName, ttl))) ==
      if later < NumericDate(now + ttl) then Ok(TokenClaims(userId, id, role, userName, NumericDate(now + ttl)))
      else Err(ExpiredJwt)
  {
  }

  /** A token with a TTL of at least one second is VALID when it is issued. */
  lemma FreshTokenValid(p: ProviderState, now: int, userId: string, id: Option<Long>, role: string, userName: string, ttl: int)
    requires SECOND_MS <= ttl
    ensures Validate(p, now, Some(GenerateToken(p, now, userId, id, role, userName, ttl))) == VALID
  {
  }

  /** Issued after the epoch with a TTL of zero or less, a correctly signed
      token is EXPIRED from the start, not INVALID. With a negative TTL and a
      positive issue time its `exp` lies strictly before the issue time. */
  lemma NonPositiveTtlExpired(p: ProviderState, now: int, userId: string, id: Option<Long>, role: string, userName: string, ttl: int)
    requires 0 <= now && ttl <= 0
    ensures Validate(p, now, Some(GenerateToken(p, now, userId, id, role, userName, ttl))) == EXPIRED
    ensures 0 < now && ttl < 0 ==> GenerateToken(p, now, userId, id, role, userName, ttl).claims.exp < now
  {
  }

  /** Because `exp` keeps whole seconds only, a positive TTL below one second
      can yield a token that is already EXPIRED when issued: issued at 1.5 s
      with a TTL of 1 ms, its `exp` is 1 s, strictly before the issue time. */
  lemma SubSecondTtlCanExpire(p: ProviderState, userId: string, id: Option<Long>, role: string, userName: string)
    ensures GenerateToken(p, 1500, userId, id, role, userName, 1).claims.exp < 1500
    ensures Validate(p, 1500, Some(GenerateToken(p, 1500, userId, id, role, userName, 1))) == EXPIRED
  {
  }

  /** The status of a signed token depends only on its signing key and its
      expiry: issuer, `typ`, issued-at and the other claims do not matter. */
  lemma StatusDependsOnKeyAndExpiry(p: ProviderState, now: int, t1: Token, t2: Token)
    requires t1.Signed? && t2.Signed?
    requires t1.key == t2.key && t1.claims.exp == t2.claims.exp
    ensures Validate(p, now, Some(t1)) == Validate(p, now, Some(t2))
  {
  }

  /** Expiry is permanent: a token that is not VALID now is not VALID at any
      later time, and an INVALID one stays INVALID at every time. */
  lemma NotValidStaysNotValid(p: ProviderState, now: int, later: int, token: Option<Token>)
    requires now <= later
    ensures Validate(p, now, token) != VALID ==> Validate(p, later, token) != VALID
    ensures Validate(p, now, token) == INVALID ==> Validate(p, later, token) == INVALID
  {
  }

  /** The two malformed strings of the service's tests, the empty string and
      null are INVALID under every key at every time. */
  lemma MalformedInputsInvalid(p: ProviderState, now: int)
    ensures Validate(p, now, Some(Junk("!!!broken.token.value!!!"))) == INVALID
    ensures Validate(p, now, Some(Junk("not-a-jwt-token"))) == INVALID
    ensures Validate(p, now, Some(Junk(""))) == INVALID
    ensures Validate(p, now, None) == INVALID
  {
  }
}
