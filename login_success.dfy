/** What happens after a successful OAuth2 login
    (global/handler/OAuth2LoginSuccessHandler.java): the refresh token is
    stored under "RT:" + e-mail with the refresh lifetime, both tokens are
    set as cookies, and the browser is sent back to the front end. */
module LoginSuccess {
  import opened Base
  import opened RedisKeys
  import opened Redis
  import opened Tokens
  import opened AuthEndpoints

  const FrontEndUrl: string := "http://localhost:3000/"

  /** The cookies after login: both token cookies replaced, with the
      lifetime of the refresh token in whole seconds. */
  function CookiesAfterLogin(cookies: map<string, Cookie>, accessToken: string, refreshToken: string, maxAge: int)
    : (c: map<string, Cookie>)
    ensures c.Keys == cookies.Keys + {AccessTokenCookie, RefreshTokenCookie}
    ensures c[AccessTokenCookie] == Cookie(accessToken, maxAge) && c[RefreshTokenCookie] == Cookie(refreshToken, maxAge)
    ensures forall name :: name in cookies && name != AccessTokenCookie && name != RefreshTokenCookie ==> c[name] == cookies[name]
  {
    (cookies - {AccessTokenCookie})[AccessTokenCookie := Cookie(accessToken, maxAge)]
      - {RefreshTokenCookie}
      + map[RefreshTokenCookie := Cookie(refreshToken, maxAge)]
  }

  class LoginSuccessHandler {
    const redis: RedisStore
    const provider: TokenProvider

    constructor (redis: RedisStore, provider: TokenProvider)
      ensures this.redis == redis && this.provider == provider
    {
      this.redis := redis;
      this.provider := provider;
    }

    /** onAuthenticationSuccess. `accessToken` and `refreshToken` are what
        the provider generates for this authentication; the result is the
        redirect target. */
    method OnAuthenticationSuccess(jar: CookieJar, authentication: Authentication, accessToken: string, refreshToken: string)
      returns (redirect: string)
      modifies redis`values, redis`ttlMs, jar
      ensures redis.values == old(redis.values)[RefreshToken(authentication.name) := refreshToken]
      ensures redis.ttlMs == old(redis.ttlMs)[RefreshToken(authentication.name) := provider.refreshExpirationMs]
      ensures jar.cookies == CookiesAfterLogin(old(jar.cookies), accessToken, refreshToken, CookieMaxAge(provider.refreshExpirationMs))
      ensures redirect == FrontEndUrl
    {
      var email := authentication.name;
      redis.SetWithTtl(RefreshToken(email), refreshToken, provider.refreshExpirationMs);
      var cookieMaxAge := CookieMaxAge(provider.refreshExpirationMs);
      jar.Delete(AccessTokenCookie);
      jar.Add(AccessTokenCookie, accessToken, cookieMaxAge);
      jar.Delete(RefreshTokenCookie);
      jar.Add(RefreshTokenCookie, refreshToken, cookieMaxAge);
      redirect := FrontEndUrl;
    }
  }

  /** Right after a login, a reissue that sends back the issued refresh
      cookie passes the store check and issues an access token for the same
      user, provided the provider accepts its own token and reads the user
      back from it. */
  lemma LoginThenReissue(provider: TokenProvider, cookies: map<string, Cookie>, values: map<Key, string>,
                         email: string, accessToken: string, refreshToken: string)
    requires provider.validate(refreshToken) && provider.subject(refreshToken) == email
    ensures var afterCookies := CookiesAfterLogin(cookies, accessToken, refreshToken, CookieMaxAge(provider.refreshExpirationMs));
            DecideReissue(provider, afterCookies, values[RefreshToken(email) := refreshToken]) == Issue(email)
  {
  }

  /** A second login of the same user replaces the stored refresh token, so
      the refresh cookie of the first login no longer reissues. */
  lemma SecondLoginRevokesFirst(provider: TokenProvider, cookies: map<string, Cookie>, values: map<Key, string>,
                                email: string, first: string, second: string)
    requires RefreshTokenCookie in cookies && cookies[RefreshTokenCookie].value == first
    requires provider.subject(first) == email && first != second
    ensures !DecideReissue(provider, cookies, values[RefreshToken(email) := first][RefreshToken(email) := second]).Issue?
  {
  }
}
