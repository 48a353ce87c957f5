/** The refresh-token endpoints of domain/auth/controller/AuthController.java.
    The refresh-token store is the Redis entry "RT:" + e-mail. */
module AuthEndpoints {
  import opened Base
  import opened RedisKeys
  import opened Redis
  import opened Tokens

  datatype HttpResponse = HttpResponse(status: int, body: string)

  const OK: int := 200
  const UNAUTHORIZED: int := 401

  const LoggedOut: string := "로그아웃되었습니다."
  const NoRefreshToken: string := "Refresh Token이 없습니다."
  const InvalidRefreshToken: string := "유효하지 않은 Refresh Token 입니다."
  const RefreshTokenMismatch: string := "Refresh Token이 일치하지 않습니다."
  const Reissued: string := "Access Token이 재발급되었습니다."

  /** The outcome of the reissue decision chain, in the order it is checked. */
  datatype ReissueOutcome =
    | MissingCookie              // no refresh_token cookie
    | InvalidToken               // validateToken fails
    | NotStored                  // "RT:" + subject missing or holding another token
    | Issue(email: string)       // a new access token for this user

  /** The reissue decision: the refresh_token cookie must exist, validate,
      and equal the token stored for its subject. */
  function DecideReissue(provider: TokenProvider, cookies: map<string, Cookie>, values: map<Key, string>)
    : (o: ReissueOutcome)
    ensures o.MissingCookie? <==> RefreshTokenCookie !in cookies
    ensures o.InvalidToken? <==> RefreshTokenCookie in cookies && !provider.validate(cookies[RefreshTokenCookie].value)
    ensures o.Issue? <==>
              RefreshTokenCookie in cookies &&
              var token := cookies[RefreshTokenCookie].value;
              provider.validate(token) &&
              RefreshToken(provider.subject(token)) in values &&
              values[RefreshToken(provider.subject(token))] == token
    ensures o.Issue? ==> o.email == provider.subject(cookies[RefreshTokenCookie].value)
  {
    if RefreshTokenCookie !in cookies then MissingCookie
    else
      var refreshToken := cookies[RefreshTokenCookie].value;
      if !provider.validate(refreshToken) then InvalidToken
      else
        var email := provider.GetAuthentication(refreshToken).name;
        var key := RefreshToken(email);
        if key !in values || values[key] != refreshToken then NotStored
        else Issue(email)
  }

  /** The response of each outcome. */
  function ReissueResponse(o: ReissueOutcome): (r: HttpResponse)
    ensures r.status == OK <==> o.Issue?
    ensures !o.Issue? ==> r.status == UNAUTHORIZED
  {
    match o
    case MissingCookie => HttpResponse(UNAUTHORIZED, NoRefreshToken)
    case InvalidToken => HttpResponse(UNAUTHORIZED, InvalidRefreshToken)
    case NotStored => HttpResponse(UNAUTHORIZED, RefreshTokenMismatch)
    case Issue(_) => HttpResponse(OK, Reissued)
  }

  class AuthController {
    const redis: RedisStore
    const provider: TokenProvider

    constructor (redis: RedisStore, provider: TokenProvider)
      ensures this.redis == redis && this.provider == provider
    {
      this.redis := redis;
      this.provider := provider;
    }

    /** logout: with an authenticated caller its refresh-token entry is
        deleted; both token cookies are always deleted, and the answer is 200. */
    method Logout(jar: CookieJar, authentication: Option<Authentication>) returns (r: HttpResponse)
      modifies redis, jar
      ensures r == HttpResponse(OK, LoggedOut)
      ensures authentication.None? ==>
                redis.values == old(redis.values) && redis.sets == old(redis.sets) && redis.ttlMs == old(redis.ttlMs)
      ensures authentication.Some? ==>
                var key := RefreshToken(authentication.value.name);
                redis.values == old(redis.values) - {key} && redis.sets == old(redis.sets) - {key} &&
                redis.ttlMs == old(redis.ttlMs) - {key}
      ensures jar.cookies == old(jar.cookies) - {AccessTokenCookie} - {RefreshTokenCookie}
    {
      if authentication.Some? {
        redis.Delete(RefreshToken(authentication.value.name));
      }
      jar.Delete(AccessTokenCookie);
      jar.Delete(RefreshTokenCookie);
      return HttpResponse(OK, LoggedOut);
    }

    /** reissue: on success only a new access_token cookie is written, with
        the refresh token's lifetime; the store and the refresh cookie are
        left as they are. `newAccessToken` is what generateAccessToken
        returns for the token's subject. */
    method Reissue(jar: CookieJar, newAccessToken: string) returns (r: HttpResponse)
      modifies jar
      ensures r == ReissueResponse(DecideReissue(provider, old(jar.cookies), redis.values))
      ensures DecideReissue(provider, old(jar.cookies), redis.values).Issue? ==>
                jar.cookies == old(jar.cookies)[AccessTokenCookie := Cookie(newAccessToken, CookieMaxAge(provider.refreshExpirationMs))]
      ensures !DecideReissue(provider, old(jar.cookies), redis.values).Issue? ==> jar.cookies == old(jar.cookies)
    {
      var refreshTokenCookie := jar.Get(RefreshTokenCookie);
      if refreshTokenCookie.None? {
        return HttpResponse(UNAUTHORIZED, NoRefreshToken);
      }
      var refreshToken := refreshTokenCookie.value;
      if !provider.validate(refreshToken) {
        return HttpResponse(UNAUTHORIZED, InvalidRefreshToken);
      }
      var authentication := provider.GetAuthentication(refreshToken);
      var email := authentication.name;
      var savedRefreshToken := redis.Get(RefreshToken(email));
      if savedRefreshToken.None? || savedRefreshToken.value != refreshToken {
        return HttpResponse(UNAUTHORIZED, RefreshTokenMismatch);
      }
      var cookieMaxAge := CookieMaxAge(provider.refreshExpirationMs);
      jar.Add(AccessTokenCookie, newAccessToken, cookieMaxAge);
      return HttpResponse(OK, Reissued);
    }
  }

  /** After a logout the refresh token of that user no longer reissues,
      even if a copy of its cookie was kept: the stored entry is gone. */
  lemma LogoutRevokes(provider: TokenProvider, cookies: map<string, Cookie>, values: map<Key, string>, email: string)
    requires RefreshTokenCookie in cookies && provider.subject(cookies[RefreshTokenCookie].value) == email
    ensures !DecideReissue(provider, cookies, values - {RefreshToken(email)}).Issue?
  {
  }

  /** Reissue only depends on the caller's own entry: writing or deleting the
      entry of another user does not change its outcome. */
  lemma OtherUsersIrrelevant(provider: TokenProvider, cookies: map<string, Cookie>, values: map<Key, string>,
                             other: string, token: string)
    requires RefreshTokenCookie in cookies && provider.subject(cookies[RefreshTokenCookie].value) != other
    ensures DecideReissue(provider, cookies, values[RefreshToken(other) := token]) == DecideReissue(provider, cookies, values)
    ensures DecideReissue(provider, cookies, values - {RefreshToken(other)}) == DecideReissue(provider, cookies, values)
  {
  }
}
