/** Users as the modelled code sees them: the fields OAuthAttributes.toEntity
    fills and UserInfoResponse reads, and the lookup by e-mail of
    UserRepository. The User entity class itself is not part of this model. */
module Users {
  import opened Base

  /** The role values the modelled code assigns. */
  datatype Role = USER

  /** A user row; the columns may hold null as the provider left them. */
  datatype User = User(name: Option<string>, email: Option<string>, picture: Option<string>, role: Role)

  class UserRepository {
    var byEmail: map<string, User>

    ghost predicate Valid()
      reads this
    {
      forall e :: e in byEmail ==> byEmail[e].email == Some(e)
    }

    constructor ()
      ensures byEmail == map[] && Valid()
    {
      byEmail := map[];
    }

    /** findByEmail: the user whose e-mail equals the argument, if any. */
    function FindByEmail(email: string): (r: Option<User>)
      reads this
      requires Valid()
      ensures r.Some? <==> email in byEmail
      ensures r.Some? ==> r.value.email == Some(email)
    {
      if email in byEmail then Some(byEmail[email]) else None
    }
  }
}
