/** The STOMP channel interceptor of global/handler/StompHandler.java: for a
    CONNECT frame whose Authorization header is "Bearer " + a valid token
    (section 2.1 of RFC 6750, on a STOMP 1.2 CONNECT frame) it computes that
    token's authentication and sets it as the user on a header accessor;
    every frame is let through. As written the accessor is a copy of the
    frame's headers, so the user never reaches the frame. */
module StompAuth {
  import opened Base
  import opened Tokens

  datatype StompCommand = CONNECT | SUBSCRIBE | UNSUBSCRIBE | SEND | DISCONNECT | OTHER

  /** The headers of an inbound frame: its command, native headers (each
      name may repeat) and the user attached to it. */
  datatype StompHeaders = StompHeaders(command: StompCommand, nativeHeaders: map<string, seq<string>>,
                                       user: Option<Authentication>)

  /** getFirstNativeHeader: the first value of the header, null when it has none. */
  function FirstNativeHeader(headers: StompHeaders, name: string): (h: Option<string>)
    ensures h.Some? <==> name in headers.nativeHeaders && |headers.nativeHeaders[name]| > 0
    ensures h.Some? ==> h.value == headers.nativeHeaders[name][0]
  {
    if name in headers.nativeHeaders && |headers.nativeHeaders[name]| > 0 then Some(headers.nativeHeaders[name][0]) else None
  }

  /** An inbound frame. Its headers are left mutable by the STOMP protocol
      handler, so an accessor obtained from the frame itself writes through. */
  class StompMessage {
    var headers: StompHeaders

    constructor (command: StompCommand, nativeHeaders: map<string, seq<string>>)
      ensures headers == StompHeaders(command, nativeHeaders, None)
    {
      headers := StompHeaders(command, nativeHeaders, None);
    }
  }

  /** The user a frame is given: for a CONNECT whose first Authorization
      value carries a bearer token that validates, that token's
      authentication; nothing otherwise. */
  function ConnectUser(provider: TokenProvider, command: StompCommand, authorization: Option<string>)
    : (u: Option<Authentication>)
    ensures u.Some? <==> command == CONNECT && BearerToken(authorization).Some? &&
                         provider.validate(BearerToken(authorization).value)
    ensures u.Some? ==> authorization.value == BearerPrefix + BearerToken(authorization).value &&
                        u.value == provider.GetAuthentication(BearerToken(authorization).value)
  {
    if command == CONNECT && BearerToken(authorization).Some? && provider.validate(BearerToken(authorization).value)
    then Some(provider.GetAuthentication(BearerToken(authorization).value))
    else None
  }

  /** The headers an accessor holds once preSend's body has run on them: the
      user ConnectUser finds, when it finds one. */
  function Authenticated(provider: TokenProvider, h: StompHeaders): (a: StompHeaders)
    ensures a.command == h.command && a.nativeHeaders == h.nativeHeaders
    ensures var u := ConnectUser(provider, h.command, FirstNativeHeader(h, "Authorization"));
            a.user == if u.Some? then u else h.user
  {
    var u := ConnectUser(provider, h.command, FirstNativeHeader(h, "Authorization"));
    if u.Some? then h.(user := u) else h
  }

  class StompHandler {
    const provider: TokenProvider

    constructor (provider: TokenProvider)
      ensures this.provider == provider
    {
      this.provider := provider;
    }

    /** preSend as written: `StompHeaderAccessor.wrap` gives an accessor over
        a copy of the frame's headers. The user is set on that copy and the
        frame is returned as it came, so no CONNECT is refused and none is
        authenticated here. */
    method PreSend(message: StompMessage) returns (r: StompMessage)
      ensures r == message && r.headers == old(message.headers)
    {
      var accessor := message.headers;
      if accessor.command == CONNECT {
        var jwtToken := FirstNativeHeader(accessor, "Authorization");
        if jwtToken.Some? && StartsWith(jwtToken.value, BearerPrefix) {
          var token := jwtToken.value[7..];
          if provider.validate(token) {
            var authentication := provider.GetAuthentication(token);
            accessor := accessor.(user := Some(authentication));
          }
        }
      }
      return message;
    }

    /** preSend with the frame's own accessor
        (`MessageHeaderAccessor.getAccessor(message, StompHeaderAccessor.class)`):
        the user is set on the frame only when ConnectUser finds one, and
        the frame itself is returned in every case. */
    method PreSendThroughAccessor(message: StompMessage) returns (r: StompMessage)
      modifies message`headers
      ensures r == message
      ensures message.headers == Authenticated(provider, old(message.headers))
    {
      if message.headers.command == CONNECT {
        var jwtToken := FirstNativeHeader(message.headers, "Authorization");
        if jwtToken.Some? && StartsWith(jwtToken.value, BearerPrefix) {
          var token := jwtToken.value[7..];
          if provider.validate(token) {
            var authentication := provider.GetAuthentication(token);
            message.headers := message.headers.(user := Some(authentication));
          }
        }
      }
      return message;
    }
  }

  /** The user the as-written preSend sets on its copy is lost: for a CONNECT
      with "Bearer " + a valid token and no user yet, the accessor's headers
      gain the token's authentication, and so differ from the frame's, which
      `PreSend` returns unchanged. */
  lemma UserSetOnCopyOnly(provider: TokenProvider, nativeHeaders: map<string, seq<string>>, token: string)
    requires provider.validate(token)
    requires "Authorization" in nativeHeaders && |nativeHeaders["Authorization"]| > 0
    requires nativeHeaders["Authorization"][0] == BearerPrefix + token
    ensures var h := StompHeaders(CONNECT, nativeHeaders, None);
            Authenticated(provider, h).user == Some(Authentication(provider.subject(token))) &&
            Authenticated(provider, h) != h
  {
    ClientTokenAuthenticates(provider, token);
  }

  /** For a CONNECT carrying "Bearer " + a token the provider accepts, the
      authentication preSend computes is that token's subject's. */
  lemma ClientTokenAuthenticates(provider: TokenProvider, token: string)
    requires provider.validate(token)
    ensures ConnectUser(provider, CONNECT, Some(BearerPrefix + token)) == Some(Authentication(provider.subject(token)))
  {
    BearerRoundTrip(token);
  }

  /** preSend computes a user for CONNECT frames only. */
  lemma OnlyConnectAuthenticates(provider: TokenProvider, command: StompCommand, authorization: Option<string>)
    requires command != CONNECT
    ensures ConnectUser(provider, command, authorization).None?
  {
  }
}
