/** The login response record and its factories. Unset builder fields are
    null (`None`) and `false`. */
module AuthLoginResponse {
  import opened Wrappers
  import opened TokenProvider

  datatype AuthLoginResponseDTO = AuthLoginResponseDTO(
    success: bool,
    userName: Option<string>,
    userId: Option<string>,
    accessToken: Option<Token>,
    refreshToken: Option<Token>,
    message: Option<string>)
  {
    /** `withoutRefreshToken`: a new record with success, userId, userName and
        the access token kept; the refresh token and the message are not set. */
    function WithoutRefreshToken(): (r: AuthLoginResponseDTO)
      ensures r.success == success && r.userId == userId && r.userName == userName
      ensures r.accessToken == accessToken
      ensures r.refreshToken.None? && r.message.None?
    {
      AuthLoginResponseDTO(success, userName, userId, accessToken, None, None)
    }
  }

  /** What `builder().build()` yields. */
  const EMPTY: AuthLoginResponseDTO := AuthLoginResponseDTO(false, None, None, None, None, None)

  /** `success(userId, userName, accessToken, refreshToken)`: the fields are
      set by name, so userId and userName are not swapped despite the record's
      declaration order; no message. */
  function Success(userId: string, userName: string, accessToken: Token, refreshToken: Token): (r: AuthLoginResponseDTO)
    ensures r.success
    ensures r.userId == Some(userId) && r.userName == Some(userName)
    ensures r.accessToken == Some(accessToken) && r.refreshToken == Some(refreshToken)
    ensures r.message.None?
  {
    EMPTY.(success := true, userId := Some(userId), userName := Some(userName),
           accessToken := Some(accessToken), refreshToken := Some(refreshToken))
  }

  /** `failure(message)`: no user and no tokens. */
  function Failure(message: string): (r: AuthLoginResponseDTO)
    ensures !r.success && r.message == Some(message)
    ensures r.userId.None? && r.userName.None?
    ensures r.accessToken.None? && r.refreshToken.None?
  {
    EMPTY.(message := Some(message))
  }

  /** Dropping the refresh token of a success keeps the rest; dropping it from
      a failure also loses the failure message. */
  lemma WithoutRefreshTokenOf(userId: string, userName: string, a: Token, rt: Token, m: string)
    ensures Success(userId, userName, a, rt).WithoutRefreshToken() == Success(userId, userName, a, rt).(refreshToken := None)
    ensures Failure(m).WithoutRefreshToken() == EMPTY
    ensures Failure(m).WithoutRefreshToken() != Failure(m)
  {
  }
}
