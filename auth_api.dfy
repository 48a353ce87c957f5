/** The front end's logout of frontend/src/api/authApi.ts: the logout POST,
    whose failure is only logged, and then, whatever its outcome, the
    deletion of both token cookies. The POST's outcome is an input. */
module AuthApi {
  import opened Base
  import opened Tokens
  import opened CookieReader
  import opened StompClients

  const LogoutUrl: string := "/api/v1/auth/logout"

  /** What the page wrote and what its cookies became. */
  class Session {
    var posted: seq<string>
    var errorsLogged: nat

    constructor ()
      ensures posted == [] && errorsLogged == 0
    {
      posted, errorsLogged := [], 0;
    }

    /** logout: the POST is sent; a failure is logged and not rethrown; in
        `finally` access_token and then refresh_token are deleted. */
    method Logout(doc: CookieDocument, postFailed: bool)
      modifies this, doc
      ensures posted == old(posted) + [LogoutUrl]
      ensures errorsLogged == old(errorsLogged) + (if postFailed then 1 else 0)
      ensures doc.writes == old(doc.writes) + [ExpiringWrite(AccessTokenCookie), ExpiringWrite(RefreshTokenCookie)]
      ensures doc.pairs == Without(Without(old(doc.pairs), AccessTokenCookie), RefreshTokenCookie)
    {
      posted := posted + [LogoutUrl];
      if postFailed {
        errorsLogged := errorsLogged + 1;
      }
      doc.DeleteCookie(AccessTokenCookie);
      doc.DeleteCookie(RefreshTokenCookie);
    }
  }

  lemma TokenNamesWellFormed()
    ensures WellFormedName(AccessTokenCookie) && WellFormedName(RefreshTokenCookie)
    ensures AccessTokenCookie != RefreshTokenCookie
  {
    assert forall i :: 0 <= i < |AccessTokenCookie| ==> AccessTokenCookie[i] != ';' && AccessTokenCookie[i] != '=';
    assert forall i :: 0 <= i < |RefreshTokenCookie| ==> RefreshTokenCookie[i] != ';' && RefreshTokenCookie[i] != '=';
    assert AccessTokenCookie[0] != RefreshTokenCookie[0];
  }

  /** After logout neither token cookie can be read, every other cookie
      reads as before, and a STOMP connection opened afterwards sends no
      Authorization header. */
  lemma LoggedOutHasNoTokens(pairs: seq<Pair>, other: string)
    requires WellFormed(pairs) && WellFormedName(other)
    requires other != AccessTokenCookie && other != RefreshTokenCookie
    ensures var after := DocumentCookie(Without(Without(pairs, AccessTokenCookie), RefreshTokenCookie));
            GetCookieValue(AccessTokenCookie, after) == None &&
            GetCookieValue(RefreshTokenCookie, after) == None &&
            GetCookieValue(other, after) == GetCookieValue(other, DocumentCookie(pairs)) &&
            ConnectHeaders(GetCookieValue(AccessTokenCookie, after)) == map[]
  {
    TokenNamesWellFormed();
    var once := Without(pairs, AccessTokenCookie);
    DeletedReadsNull(pairs, AccessTokenCookie, other);
    DeletedReadsNull(once, RefreshTokenCookie, other);
    DeletedReadsNull(once, RefreshTokenCookie, AccessTokenCookie);
  }
}
