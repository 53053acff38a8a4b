/** The registration response record and its factories. */
module UserJoinResponse {
  import opened Wrappers

  datatype UserJoinResponseDTO = UserJoinResponseDTO(
    success: bool,
    userId: Option<string>,
    userName: Option<string>,
    message: Option<string>)

  const OK_MESSAGE: string := "OK"

  /** `success(userId, userName)`: always with message "OK". */
  function Success(userId: string, userName: string): (r: UserJoinResponseDTO)
    ensures r.success && r.userId == Some(userId) && r.userName == Some(userName)
    ensures r.message == Some(OK_MESSAGE)
  {
    UserJoinResponseDTO(true, Some(userId), Some(userName), Some(OK_MESSAGE))
  }

  /** `failure(message)`: no user. */
  function Failure(message: string): (r: UserJoinResponseDTO)
    ensures !r.success && r.message == Some(message)
    ensures r.userId.None? && r.userName.None?
  {
    UserJoinResponseDTO(false, None, None, Some(message))
  }
}
