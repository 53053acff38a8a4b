# tr-auth-service in Dafny

A model of the core of a small authentication service: user registration, login, short-lived
access and refresh JSON Web Tokens (RFC 7519, JWS compact form of RFC 7515 signed with HS512 of
section 3.2 of RFC 7518), token validation and token reissue, with proofs about that model.

- **Token codec** (`token_provider.dfy`, module `TokenProvider`). A token is either a signed record
  (header `typ`, the claims `iss`, `iat`, `exp`, `sub`, `id`, `role` and `userName`, and the key it
  was signed with) or `Junk` text. A signature verifies exactly when it was made with the
  provider's key. `Validate` is the parser's exception-to-status case split: INVALID for null,
  empty, malformed or foreign-key tokens; EXPIRED for a correctly signed token at or after its
  `exp`; VALID otherwise. The signature is checked before the expiry. `Parse` succeeds exactly on
  VALID tokens and otherwise yields the parser's exception. Time is in milliseconds. `exp` and
  `iat` keep whole seconds only (a JWT NumericDate), so a TTL of at least one second is VALID when
  issued and a positive TTL below one second can already be EXPIRED. The `TokenProvider` class
  derives its key once in `Init`. The token functions and the auth service take a
  `ProviderState`, which stands for `State()` of a `TokenProvider` after `Init`.
- **Auth orchestrator** (`auth_service.dfy`, `auth_controller.dfy`). `Login` takes an abstract
  authenticator (login id and password to an optional principal). On success it mints a 20-hour
  access token and a 2-day refresh token. `ReissueTokens` accepts only a VALID refresh token and
  mints a 20-second access token and a 2-day refresh token with the same subject, id, role and
  userName. `ValidToken` passes the status through. The controller maps each outcome to an HTTP
  status and body. A lemma shows that the identity claims survive any chain of reissues made
  within each refresh token's lifetime.
- **Registration** (`user_service.dfy`, `user_repository.dfy`, `password_encoder.dfy`). The
  in-memory store of the registration test is a class with a map keyed by login id and an
  `AtomicLong`-style counter that wraps at `Long.MAX_VALUE`. `UserService.Join` is a
  check-then-insert. Both methods are proved against the pure `SaveStep`/`JoinStep`, and the
  lemmas are about those functions: count plus one, other users untouched, sequential ids, and no
  record ever replaced over a series of registrations.
- **Adapters** (`user.dfy`, `user_mapper.dfy`, `custom_user_details.dfy`, the `*_response.dfy`
  files, `role.dfy`). These fix which field each factory and mapper sets, nulls or defaults.

Java `null` is `None` of `Option`. An exception that escapes is `Err` of `Result`. A Java `long`
is the subset type `Longs.Long`.

The mapper as written passes `getRole().name()`, a `String`, into the entity's `Role`-typed field
(src/main/java/com/trevari/spring/trauthservice/infrastructure/persistence/UserEntity.java:29-31).
The model follows the evident intent, that of `@Enumerated(EnumType.STRING)`: the entity holds the
role's name, and `toDomain` reads it back with `valueOf`.

## Model

| member | source | states |
|---|---|---|
| `Longs.IncrementAndGet` | src/test/java/com/trevari/spring/trauthservice/application/UserServiceTest.java:99 | the counter's next value is one more, wrapping from `Long.MAX_VALUE` to `Long.MIN_VALUE` |
| `Roles.ValueOf` | src/main/java/com/trevari/spring/trauthservice/interfaces/mapper/UserMapper.java:25 | `valueOf` returns the role whose name is the string, and fails (throws) when no role has that name |
| `Roles.Name` | src/main/java/com/trevari/spring/trauthservice/interfaces/mapper/UserMapper.java:16 | every role's name starts with `ROLE_` and has more after it; with `Roles.NameInjective` distinct roles have distinct names, and `Roles.ValueOf` reads each name back as its role |
| `Roles.NameInjective` | src/main/java/com/trevari/spring/trauthservice/interfaces/mapper/UserMapper.java:16-25 | two roles have the same name only if they are the same role |
| `Users.Create` | src/main/java/com/trevari/spring/trauthservice/domain/user/User.java:15-22 | `create` leaves the id null and stores login id, encoded password, display name and role as passed |
| `Users.Reconstruct` | src/main/java/com/trevari/spring/trauthservice/domain/user/User.java:24-32 | `reconstruct` stores all five fields as passed |
| `Users.ReconstructChangesOnlyId` | src/main/java/com/trevari/spring/trauthservice/domain/user/User.java:15-32 | rebuilding a user from its own fields with an id differs from it only in the id; with a null id it equals what `create` builds |
| `UserMapper.ToEntity` | src/main/java/com/trevari/spring/trauthservice/interfaces/mapper/UserMapper.java:11-18 | login id, display name and password copied, id not set, role written so that it reads back as the same role |
| `UserMapper.ToDomain` | src/main/java/com/trevari/spring/trauthservice/interfaces/mapper/UserMapper.java:20-27 | fails exactly when the role column is no role's name; otherwise copies the fields, reads the role by name and leaves the id null |
| `UserMapper.ToDomainToEntity` | src/main/java/com/trevari/spring/trauthservice/interfaces/mapper/UserMapper.java:11-27 | writing a user out and reading it back gives the same user with a null id |
| `FakePasswordEncoder.Encode` | src/test/java/com/trevari/spring/trauthservice/application/UserServiceTest.java:131-134 | the encoding is `ENC:` followed by the raw password, so it starts with `ENC:` and never equals the raw password |
| `FakePasswordEncoder.Matches` | src/test/java/com/trevari/spring/trauthservice/application/UserServiceTest.java:135-138 | `matches(raw, enc)` holds exactly when `enc` is `ENC:` followed by `raw` |
| `FakePasswordEncoder.MatchesExactlyEncoded` | src/test/java/com/trevari/spring/trauthservice/application/UserServiceTest.java:135-138 | `matches(raw, encode(raw))` always holds, and an encoding matches no other raw password |
| `CustomUserDetails.GetRole` | src/main/java/com/trevari/spring/trauthservice/infrastructure/security/CustomUserDetails.java:25-30 | the first authority, or `ROLE_USER` when there are none |
| `CustomUserDetails.From` | src/main/java/com/trevari/spring/trauthservice/infrastructure/security/CustomUserDetails.java:32-41 | id, login id and password copied; exactly one authority, the role's name |
| `CustomUserDetails.RoleOfFrom` | src/main/java/com/trevari/spring/trauthservice/infrastructure/security/CustomUserDetails.java:25-41 | the principal of a user reports that user's role name, which reads back as the role |
| `CustomUserDetails.GetUsername` | src/main/java/com/trevari/spring/trauthservice/infrastructure/security/CustomUserDetails.java:45 | the username Spring Security sees is the login id, not the display name (see `CustomUserDetails.CredentialsOfFrom`) |
| `CustomUserDetails.GetPassword` | src/main/java/com/trevari/spring/trauthservice/infrastructure/security/CustomUserDetails.java:44 | the password is the stored, encoded one |
| `CustomUserDetails.CredentialsOfFrom` | src/main/java/com/trevari/spring/trauthservice/infrastructure/security/CustomUserDetails.java:44-45 | the username is the login id and the password is the stored password |
| `CustomUserDetails.AccountAlwaysUsable` | src/main/java/com/trevari/spring/trauthservice/infrastructure/security/CustomUserDetails.java:46-49 | all four account-status flags hold for every principal |
| `TokenProvider.NumericDate` | src/main/java/com/trevari/spring/trauthservice/infrastructure/security/TokenProvider.java:45-46 | a token's instants are kept to whole seconds, within one second of the given instant and never beyond it away from the epoch |
| `TokenProvider.TokenProvider.Init` | src/main/java/com/trevari/spring/trauthservice/infrastructure/security/TokenProvider.java:27-37 | the key is made from the Base64 decoding of the secret when it decodes, otherwise from its UTF-8 bytes |
| `TokenProvider.GenerateToken` | src/main/java/com/trevari/spring/trauthservice/infrastructure/security/TokenProvider.java:40-53 | the token verifies under the provider's key and carries the subject, id, role and userName given, with `iat = now` and `exp = now + ttl` to the whole second (round trip in `TokenProvider.ParseGenerated`, validity in `TokenProvider.FreshTokenValid`) |
| `TokenProvider.GeneratedTokenContents` | src/main/java/com/trevari/spring/trauthservice/infrastructure/security/TokenProvider.java:40-53 | a generated token is signed with the provider's key and carries `typ` JWT, the configured issuer, `iat = now` and `exp = now + ttl` to the whole second, the subject and the id, role and userName claims unchanged |
| `TokenProvider.ParseClaims` | src/main/java/com/trevari/spring/trauthservice/infrastructure/security/TokenProvider.java:82-88 | succeeds exactly for a token signed with the provider's key and `now < exp`, returning its claims; ExpiredJwt exactly when so signed and `exp <= now`; a signature mismatch for another key; IllegalArgument for null and the empty string |
| `TokenProvider.Validate` | src/main/java/com/trevari/spring/trauthservice/infrastructure/security/TokenProvider.java:56-67 | total; VALID exactly when the token is signed with the provider's key and `now < exp`; EXPIRED exactly when it is so signed and `exp <= now`; INVALID exactly when it is null, empty, malformed or signed with another key, whatever its expiry |
| `TokenProvider.Parse` | src/main/java/com/trevari/spring/trauthservice/infrastructure/security/TokenProvider.java:70-79 | succeeds exactly on VALID tokens, with their subject, id, role, userName and expiry; otherwise throws, ExpiredJwt exactly for EXPIRED ones |
| `TokenProvider.ParseGenerated` | src/main/java/com/trevari/spring/trauthservice/infrastructure/security/TokenProvider.java:40-79 | round trip: parsing a generated token before its expiry returns the claims it was generated from with `exp = now + ttl` to the whole second; from `exp` on it throws ExpiredJwt |
| `TokenProvider.FreshTokenValid` | src/test/java/com/trevari/spring/trauthservice/application/AuthServiceTest.java:176-182 | a token with a TTL of one second or more is VALID when issued |
| `TokenProvider.NonPositiveTtlExpired` | src/test/java/com/trevari/spring/trauthservice/application/AuthServiceTest.java:184-189 | a correctly signed token with a TTL of zero or less is EXPIRED, not INVALID; with a negative TTL and a positive `now` its `exp` lies strictly before `now`, so that case does not depend on the expiry boundary; at TTL zero and a whole-second `now`, and at `now = 0` with a TTL above -1000 ms, `exp == now` and EXPIRED follows from the model's boundary rule (see `TokenProvider.Validate` under Left out) |
| `TokenProvider.SubSecondTtlCanExpire` | src/main/java/com/trevari/spring/trauthservice/infrastructure/security/TokenProvider.java:45-46 | with whole-second `exp`, a 1 ms TTL at instant 1500 gives `exp` 1000, strictly before the issue time, so the token is EXPIRED when issued |
| `TokenProvider.StatusDependsOnKeyAndExpiry` | src/main/java/com/trevari/spring/trauthservice/infrastructure/security/TokenProvider.java:82-88 | two signed tokens with the same key and the same `exp` get the same status: issuer, `typ` and the other claims are never checked |
| `TokenProvider.NotValidStaysNotValid` | src/main/java/com/trevari/spring/trauthservice/infrastructure/security/TokenProvider.java:56-67 | a token that is not VALID now is not VALID later, and an INVALID one is INVALID at every time |
| `TokenProvider.MalformedInputsInvalid` | src/test/java/com/trevari/spring/trauthservice/application/AuthServiceTest.java:191-196 | `"!!!broken.token.value!!!"`, `"not-a-jwt-token"`, the empty string and null are INVALID |
| `AuthLoginResponse.Success` | src/main/java/com/trevari/spring/trauthservice/interfaces/dto/AuthLoginResponseDTO.java:15-28 | success set; userId and userName set by name, not swapped; both tokens set; no message |
| `AuthLoginResponse.Failure` | src/main/java/com/trevari/spring/trauthservice/interfaces/dto/AuthLoginResponseDTO.java:31-36 | success false with the message; userId, userName and both tokens null |
| `AuthLoginResponse.AuthLoginResponseDTO.WithoutRefreshToken` | src/main/java/com/trevari/spring/trauthservice/interfaces/dto/AuthLoginResponseDTO.java:39-46 | keeps success, userId, userName and access token; nulls the refresh token and the message |
| `AuthLoginResponse.WithoutRefreshTokenOf` | src/main/java/com/trevari/spring/trauthservice/interfaces/dto/AuthLoginResponseDTO.java:15-46 | applied to a success it only drops the refresh token; applied to a failure it also loses the message |
| `ReissueTokenResponse.ReissueTokenResponseDTO.WithoutRefreshToken` | src/main/java/com/trevari/spring/trauthservice/interfaces/dto/ReissueTokenResponseDTO.java:13-18 | keeps success and access token, nulls the refresh token and resets statusNum to 0 |
| `ReissueTokenResponse.WithoutRefreshTokenIdempotent` | src/main/java/com/trevari/spring/trauthservice/interfaces/dto/ReissueTokenResponseDTO.java:13-18 | idempotent; a failure without tokens becomes the empty builder record, so its -1 code is lost |
| `UserJoinResponse.Success` | src/main/java/com/trevari/spring/trauthservice/interfaces/dto/UserJoinResponseDTO.java:12-19 | success with the given login id and display name and the message `OK` |
| `UserJoinResponse.Failure` | src/main/java/com/trevari/spring/trauthservice/interfaces/dto/UserJoinResponseDTO.java:20-25 | failure with the message; login id and display name null |
| `FakeUserRepository.SaveStep` | src/test/java/com/trevari/spring/trauthservice/application/UserServiceTest.java:97-110 | `save` keeps a non-null id and the counter; otherwise uses the counter's next value; stores the result under its login id, replacing any entry there, and returns it |
| `FakeUserRepository.SaveEffect` | src/test/java/com/trevari/spring/trauthservice/application/UserServiceTest.java:101-112 | saving keeps every other entry, adds one entry exactly when the login id is new, and stores every user under its own login id with an id |
| `FakeUserRepository.SaveAllSequentialIds` | src/test/java/com/trevari/spring/trauthservice/application/UserServiceTest.java:85-99 | users saved without an id get consecutive ids after the counter (1, 2, 3, … from a new store) while the counter does not wrap |
| `FakeUserRepository.Repository.constructor` | src/test/java/com/trevari/spring/trauthservice/application/UserServiceTest.java:84-85 | a new store is empty with its counter at 0 |
| `FakeUserRepository.Repository.ExistsByUserId` | src/test/java/com/trevari/spring/trauthservice/application/UserServiceTest.java:87-90 | true exactly when the login id is a key of the store |
| `FakeUserRepository.Repository.FindByUserId` | src/test/java/com/trevari/spring/trauthservice/application/UserServiceTest.java:92-95 | the user stored under the login id, which has that login id and an id, or empty when there is none |
| `FakeUserRepository.Repository.Save` | src/test/java/com/trevari/spring/trauthservice/application/UserServiceTest.java:97-110 | the new store, counter and returned user are those of `SaveStep`, and the store stays well keyed |
| `FakeUserRepository.Repository.Count` | src/test/java/com/trevari/spring/trauthservice/application/UserServiceTest.java:112 | the number of distinct login ids stored |
| `UserService.JoinStep` | src/main/java/com/trevari/spring/trauthservice/application/UserService.java:20-42 | success exactly when the login id is not taken; a taken one yields failure `DUPLICATE_USER_ID` with the state unchanged; a new one stores the user with the next id and the encoded password under its login id and answers with its login id and display name (consequences in `UserService.JoinNew` and `UserService.JoinDuplicate`) |
| `UserService.JoinDuplicate` | src/main/java/com/trevari/spring/trauthservice/application/UserService.java:22-24 | a taken login id gives failure `DUPLICATE_USER_ID` and leaves store and counter unchanged |
| `UserService.JoinNew` | src/main/java/com/trevari/spring/trauthservice/application/UserService.java:27-41 | a new login id gives success with that login id and display name; one more entry; others untouched; the stored user has the requested name and role (ROLE_ADMIN included), the next id, and an encoded password that matches the raw one and differs from it |
| `UserService.JoinStepKeeps` | src/main/java/com/trevari/spring/trauthservice/application/UserService.java:20-42 | a join, taken or new, keeps every stored record and adds at most the requested login id |
| `UserService.JoinAllNeverReplaces` | src/main/java/com/trevari/spring/trauthservice/application/UserService.java:20-42 | over any series of joins the stored login ids grow by exactly the requested ones and no earlier record changes |
| `UserService.UserService.Join` | src/main/java/com/trevari/spring/trauthservice/application/UserService.java:19-42 | the new store state and the response are those of `JoinStep` on the old state |
| `AuthService.CreateTokenForPrincipal` | src/main/java/com/trevari/spring/trauthservice/application/AuthService.java:79-87 | the token verifies, expires at `now + ttl` to the whole second, and parsed at any time before then gives the principal's login id (as subject and as userName), id and role |
| `AuthService.CreateTokenFromClaims` | src/main/java/com/trevari/spring/trauthservice/application/AuthService.java:89-97 | the token verifies, expires at `now + ttl` to the whole second, and parsed at any time before then gives the given claims with only the expiry replaced |
| `AuthService.PrincipalTokenClaims` | src/main/java/com/trevari/spring/trauthservice/application/AuthService.java:79-87 | a token minted for a principal is VALID at issuance and carries its login id as subject and as userName, its id and its role |
| `AuthService.FailureMessageNamesBoth` | src/main/java/com/trevari/spring/trauthservice/application/AuthService.java:47 | the login failure message contains "아이디 또는 비밀번호" |
| `AuthService.Login` | src/main/java/com/trevari/spring/trauthservice/application/AuthService.java:26-49 | success exactly when the authenticator accepts; then userId and userName are the login id and two tokens are VALID carrying the principal's claims with 20-hour and 2-day lifetimes; on failure the fixed message and null user and tokens |
| `AuthService.ValidToken` | src/main/java/com/trevari/spring/trauthservice/application/AuthService.java:71-77 | the status is the codec's: VALID exactly for correctly signed unexpired tokens, EXPIRED exactly for correctly signed expired ones |
| `AuthService.ReissueTokens` | src/main/java/com/trevari/spring/trauthservice/application/AuthService.java:51-69 | success exactly for a VALID refresh token; a failure has statusNum -1 and no tokens; a success has statusNum 0 and two tokens VALID now with the old token's claims and lifetimes of 20 seconds and 2 days |
| `AuthService.SlidingReissue` | src/main/java/com/trevari/spring/trauthservice/application/AuthService.java:51-69 | each reissue fed the previous refresh token at any instant before that token's `exp` (`now + 2 days` to the whole second), succeeds and hands out tokens with the original subject, id, role and userName |
| `AuthService.OldRefreshTokenStillUsable` | src/main/java/com/trevari/spring/trauthservice/application/AuthService.java:51-69 | a refresh token used for a reissue is not revoked: it can be reissued again at any time before its own expiry |
| `AuthController.LoginStatus` | src/main/java/com/trevari/spring/trauthservice/interfaces/http/AuthController.java:30-34 | 200 exactly for a non-null successful result, otherwise 401; the body is the result unchanged |
| `AuthController.ReissueStatus` | src/main/java/com/trevari/spring/trauthservice/interfaces/http/AuthController.java:45-51 | the same 200/401 rule on `success`, with the result as body |
| `AuthController.ValidateStatus` | src/main/java/com/trevari/spring/trauthservice/interfaces/http/AuthController.java:60-70 | null gives 500 with -1; VALID gives 200 with 1; EXPIRED and INVALID give 200 with 2 |
| `AuthController.LoginEndpointStatus` | src/main/java/com/trevari/spring/trauthservice/interfaces/http/AuthController.java:27-35 | login answers 200 exactly when the credentials authenticate, else 401 |
| `AuthController.ReissueEndpointStatus` | src/main/java/com/trevari/spring/trauthservice/interfaces/http/AuthController.java:42-52 | reissue answers 200 exactly for a refresh token VALID now, else 401 |
| `AuthController.ValidateEndpointAnswers` | src/main/java/com/trevari/spring/trauthservice/interfaces/http/AuthController.java:57-71 | validate always answers 200, with 1 exactly for a correctly signed unexpired token and 2 otherwise, so an expired token cannot be told from a forged one |

## Left out

- JWT library internals are abstracted. This covers JWS compact serialisation, base64url and JSON
  encoding, and HMAC-SHA-512. A signature verifies exactly when it was made with the same key.
  HMAC collisions, other algorithms and `alg: none` all count as `Junk`.
- `Keys.hmacShaKeyFor` and `signWith` reject weak keys (`WeakKeyException`). Those checks are
  library code and are not modelled, so `Init` always yields a key.
- `Base64.getDecoder().decode` and `String.getBytes(UTF_8)` are library functions. They are
  parameters of `Init`.
- `TokenProvider.Validate`, `TokenProvider.ParseClaims`: the expiry boundary follows section 4.1.4 of RFC 7519 (expired from the
  instant of `exp` on). The JWT library's own comparison at that exact millisecond, and its
  clock-skew allowance, are not modelled.
- A non-empty blank token string is classified as `MalformedJwt`, not as the library's
  `IllegalArgumentException`. Both give INVALID.
- Clocks: each service call takes one instant `now`. The source reads the clock once per
  `generateToken`, and the JWT parser has its own clock. So the two login tokens may differ by
  milliseconds in `iat`. Also, a refresh token that expires between the `validate` and the `parse`
  of `reissueTokens` would make `parse` throw out of the service. Neither effect is modelled.
- Overflow of `Instant`/`Date` arithmetic for huge TTLs is not modelled: integers are unbounded.
- A null login id, role or display name is not modelled. Only tokens and DTO fields are nullable.
- A token signed with the provider's key always carries every claim. Only `generateToken` signs
  with that key, and it always sets them. A correctly signed token without `exp` is therefore not
  modelled.
- Authentication: `AuthenticationManager`, `DaoAuthenticationProvider` and BCrypt are replaced by an
  authenticator parameter that yields a principal or nothing. The principal is assumed to be a
  `CustomUserDetails`; a failing cast is not modelled.
- Registration runs over the test's in-memory store and prefix encoder. The production
  `UserRepositoryAdapter`/JPA store, the `@Transactional` boundary and the database unique
  constraint are not modelled. There is no concurrency.
- Role.java is not part of this model. The enumeration's two constants come from the tests.
- `UserController`, logging and the API documentation annotations are HTTP plumbing.
- Behaviour-free holders (`AuthTokens`, `AuthenticatedUser`, `ErrorResponse`, the `UserRepository`
  interface, `UserLoginResponseDTO`) are not modelled. Request records become small datatypes.
- In the source, tokens inside the response records are strings. Here they are `Token` values; a
  non-blank token is a `Signed` one.
- There is no logout, revocation or refresh-token rotation in the source, and none in the model.
