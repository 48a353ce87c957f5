/** The cookie-based authentication filter of
    global/jwt/JwtAuthenticationFilter.java, run once per request. */
module JwtFilter {
  import opened Base
  import opened Tokens

  /** The rest of the servlet filter chain; only how often it is entered matters here. */
  class FilterChain {
    var invocations: nat

    constructor ()
      ensures invocations == 0
    {
      invocations := 0;
    }

    method DoFilter()
      modifies this
      ensures invocations == old(invocations) + 1
    {
      invocations := invocations + 1;
    }
  }

  /** The authentication a request's cookies establish: that of its
      access_token when the cookie exists and validates, none otherwise. */
  function CookieAuthentication(provider: TokenProvider, cookies: map<string, Cookie>): (a: Option<Authentication>)
    ensures a.Some? <==> AccessTokenCookie in cookies && provider.validate(cookies[AccessTokenCookie].value)
    ensures a.Some? ==> a.value == provider.GetAuthentication(cookies[AccessTokenCookie].value)
  {
    if AccessTokenCookie in cookies && provider.validate(cookies[AccessTokenCookie].value)
    then Some(provider.GetAuthentication(cookies[AccessTokenCookie].value))
    else None
  }

  class JwtAuthenticationFilter {
    const provider: TokenProvider

    constructor (provider: TokenProvider)
      ensures this.provider == provider
    {
      this.provider := provider;
    }

    /** doFilterInternal: a valid access_token cookie sets the context's
        authentication; otherwise the context is left as it was. The chain
        continues exactly once either way. */
    method DoFilterInternal(jar: CookieJar, context: SecurityContext, chain: FilterChain)
      modifies context, chain
      ensures CookieAuthentication(provider, jar.cookies).Some? ==>
                context.authentication == CookieAuthentication(provider, jar.cookies)
      ensures CookieAuthentication(provider, jar.cookies).None? ==>
                context.authentication == old(context.authentication)
      ensures chain.invocations == old(chain.invocations) + 1
    {
      var accessToken := jar.Get(AccessTokenCookie);
      if accessToken.Some? && provider.validate(accessToken.value) {
        var authentication := provider.GetAuthentication(accessToken.value);
        context.authentication := Some(authentication);
      }
      chain.DoFilter();
    }
  }
}
