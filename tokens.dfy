/** What the session code relies on but does not define: the JWT provider
    (JwtTokenProvider), the browser's cookie jar as CookieUtil reads and
    writes it, the security context, and Java's long-to-int narrowing of the
    cookie lifetime. JwtTokenProvider and CookieUtil are not part of this
    model: validation and the token's subject are given functions, and newly
    generated tokens are inputs of the operations that issue them. */
module Tokens {
  import opened Base

  /** An authenticated principal; getName() is the user's e-mail. */
  datatype Authentication = Authentication(name: string)

  /** JwtTokenProvider: validateToken, getAuthentication(token).getName()
      and getRefreshTokenExpirationMs(). */
  datatype TokenProvider = TokenProvider(
    validate: string -> bool,
    subject: string -> string,
    refreshExpirationMs: nat)
  {
    function GetAuthentication(token: string): Authentication
    {
      Authentication(subject(token))
    }
  }

  const AccessTokenCookie: string := "access_token"
  const RefreshTokenCookie: string := "refresh_token"

  datatype Cookie = Cookie(value: string, maxAgeSeconds: int)

  /** The browser's cookies by name: what the next request carries and what
      the responses' Set-Cookie headers change. */
  class CookieJar {
    var cookies: map<string, Cookie>

    constructor (initial: map<string, Cookie>)
      ensures cookies == initial
    {
      cookies := initial;
    }

    /** CookieUtil.getCookie(request, name).map(Cookie::getValue). */
    function Get(name: string): (r: Option<string>)
      reads this
      ensures r.Some? <==> name in cookies
      ensures r.Some? ==> r.value == cookies[name].value
    {
      if name in cookies then Some(cookies[name].value) else None
    }

    /** CookieUtil.addCookie: the cookie is set, replacing any of that name. */
    method Add(name: string, value: string, maxAgeSeconds: int)
      modifies this
      ensures cookies == old(cookies)[name := Cookie(value, maxAgeSeconds)]
    {
      cookies := cookies[name := Cookie(value, maxAgeSeconds)];
    }

    /** CookieUtil.deleteCookie: the cookie is expired, so the browser drops it. */
    method Delete(name: string)
      modifies this
      ensures cookies == old(cookies) - {name}
    {
      cookies := cookies - {name};
    }
  }

  /** SecurityContextHolder.getContext(): the current request's authentication. */
  class SecurityContext {
    var authentication: Option<Authentication>

    constructor ()
      ensures authentication.None?
    {
      authentication := None;
    }
  }

  const TwoTo32: int := 0x1_0000_0000
  const TwoTo31: int := 0x8000_0000

  /** Java's (int) cast of a long: the low 32 bits as a two's-complement value. */
  function ToInt(x: int): (r: int)
    ensures -TwoTo31 <= r < TwoTo31
    ensures (r - x) % TwoTo32 == 0
    ensures -TwoTo31 <= x < TwoTo31 ==> r == x
  {
    var m := x % TwoTo32;
    if m >= TwoTo31 then m - TwoTo32 else m
  }

  /** (int) (getRefreshTokenExpirationMs() / 1000): whole seconds, narrowed
      to int. The lifetime is not negative, so Java's truncating division
      agrees with Dafny's. */
  function CookieMaxAge(refreshExpirationMs: nat): (seconds: int)
    ensures refreshExpirationMs < 1000 * TwoTo31 ==>
              0 <= seconds && seconds * 1000 <= refreshExpirationMs < seconds * 1000 + 1000
  {
    ToInt(refreshExpirationMs / 1000)
  }

  /** Above 2^31 seconds the narrowing wraps: the cookie gets a negative
      lifetime, which a browser treats as a session cookie. */
  lemma MaxAgeWraps()
    ensures CookieMaxAge(1000 * TwoTo31) == -TwoTo31
  {
  }

  /** "Bearer " + token, the form of the Authorization header (section 2.1 of RFC 6750). */
  const BearerPrefix: string := "Bearer "

  /** The token of an Authorization value: the value after its 7-character
      "Bearer " prefix, none when the value is missing or lacks the prefix. */
  function BearerToken(header: Option<string>): (t: Option<string>)
    ensures t.Some? <==> header.Some? && StartsWith(header.value, BearerPrefix)
    ensures t.Some? ==> header.value == BearerPrefix + t.value
  {
    if header.Some? && StartsWith(header.value, BearerPrefix) then Some(header.value[7..]) else None
  }

  /** The token a client puts after "Bearer " is the token the server checks. */
  lemma BearerRoundTrip(token: string)
    ensures BearerToken(Some(BearerPrefix + token)) == Some(token)
  {
    assert (BearerPrefix + token)[7..] == token;
  }
}
