/** GET /api/v1/users/me (domain/user/controller/UserController.java): the
    logged-in user's public profile, looked up by the e-mail the
    authentication carries. */
module UserEndpoints {
  import opened Base
  import opened Users
  import opened Tokens

  /** UserInfoResponse: the three public columns of a user. */
  datatype UserInfoResponse = UserInfoResponse(name: Option<string>, email: Option<string>, picture: Option<string>)

  /** The answer: 401 with no body, or 200 with the profile. */
  datatype MyInfoResponse = Unauthorized401 | Ok200(info: UserInfoResponse)

  function InfoOf(u: User): (r: UserInfoResponse)
    ensures r.name == u.name && r.email == u.email && r.picture == u.picture
  {
    UserInfoResponse(u.name, u.email, u.picture)
  }

  /** getMyInfo. A missing or unauthenticated caller gets 401 without a
      lookup; an authenticated one whose e-mail has no user throws
      UserNotFoundException. */
  function GetMyInfo(users: UserRepository, authentication: Option<Authentication>, isAuthenticated: bool)
    : (r: Result<MyInfoResponse>)
    reads users
    requires users.Valid()
    ensures authentication.None? || !isAuthenticated ==> r == Ok(Unauthorized401)
    ensures authentication.Some? && isAuthenticated && authentication.value.name !in users.byEmail ==>
              r == Throw(UserNotFound)
    ensures authentication.Some? && isAuthenticated && authentication.value.name in users.byEmail ==>
              r == Ok(Ok200(InfoOf(users.byEmail[authentication.value.name])))
  {
    if authentication.None? || !isAuthenticated then Ok(Unauthorized401)
    else
      var email := authentication.value.name;
      match users.FindByEmail(email)
      case None => Throw(UserNotFound)
      case Some(user) => Ok(Ok200(InfoOf(user)))
  }

  /** The profile returned is always the caller's own: its e-mail is the
      authentication's name. */
  lemma OwnProfile(users: UserRepository, authentication: Authentication)
    requires users.Valid()
    requires GetMyInfo(users, Some(authentication), true).Ok?
    ensures GetMyInfo(users, Some(authentication), true).value.Ok200?
    ensures GetMyInfo(users, Some(authentication), true).value.info.email == Some(authentication.name)
  {
  }
}
