/** The token reissue response record. Unset builder fields are `false`, 0 and null. */
module ReissueTokenResponse {
  import opened Wrappers
  import opened TokenProvider

  datatype ReissueTokenResponseDTO = ReissueTokenResponseDTO(
    success: bool,
    statusNum: int,
    accessToken: Option<Token>,
    refreshToken: Option<Token>)
  {
    /** `withoutRefreshToken`: a new record with success and the access token
        kept; the refresh token is not set and statusNum is the builder's 0. */
    function WithoutRefreshToken(): (r: ReissueTokenResponseDTO)
      ensures r.success == success && r.accessToken == accessToken
      ensures r.refreshToken.None? && r.statusNum == 0
    {
      ReissueTokenResponseDTO(success, 0, accessToken, None)
    }
  }

  /** What `builder().build()` yields. */
  const EMPTY: ReissueTokenResponseDTO := ReissueTokenResponseDTO(false, 0, None, None)

  /** `withoutRefreshToken` is idempotent, and it turns the -1 failure code
      into 0, so a failure can no longer be told apart from the empty record. */
  lemma WithoutRefreshTokenIdempotent(r: ReissueTokenResponseDTO)
    ensures r.WithoutRefreshToken().WithoutRefreshToken() == r.WithoutRefreshToken()
    ensures !r.success && r.accessToken.None? ==> r.WithoutRefreshToken() == EMPTY
  {
  }
}
