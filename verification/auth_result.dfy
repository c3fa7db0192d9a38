/**
 * `AuthResult`: the immutable outcome of an authentication attempt, with its
 * two factory functions. Every field is final, so the Dafny value type is the
 * whole story: a result never changes once built.
 */
module AuthResult {
  import opened Wrappers
  import AzAuth

  datatype AuthStatus = SUCCESS | EMAIL_UNVERIFIED | FAIL

  datatype AuthType = PASSWORD | ACCESS_TOKEN | UNKNOWN

  /** The four-argument constructor stores its arguments verbatim. */
  datatype AuthResult = AuthResult(
    status: AuthStatus,
    authType: AuthType,
    user: Option<AzAuth.User>,
    errorMessage: Option<string>)

  /** `success(type, user)`: a successful result carries the user and no error message. */
  function Success(authType: AuthType, user: Option<AzAuth.User>): (r: AuthResult)
    ensures r.status == SUCCESS && r.authType == authType
    ensures r.user == user && r.errorMessage.None?
  {
    AuthResult(SUCCESS, authType, user, None)
  }

  /** `failure(type, errorMessage)`: a failed result carries the message and no user. */
  function Failure(authType: AuthType, errorMessage: Option<string>): (r: AuthResult)
    ensures r.status == FAIL && r.authType == authType
    ensures r.user.None? && r.errorMessage == errorMessage
  {
    AuthResult(FAIL, authType, None, errorMessage)
  }
}
