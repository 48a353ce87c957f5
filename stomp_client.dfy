/** The STOMP client the front end drives (the Client of @stomp/stompjs, as
    StompContext.tsx and useStomp.ts use it), reduced to its observable
    state: whether it is active and connected, the subscriptions of the
    current connection with their counter, and the frames it has published. The transport is
    left out; the broker's CONNECTED answer and a lost connection are
    events. Also: the connect headers both callers build from the
    access_token cookie. */
module StompClients {
  import opened Base
  import opened Decimal
  import opened Tokens
  import opened CookieReader
  import opened StompAuth

  /** A JSON value as JSON.stringify writes it. */
  datatype JsonValue = JNull | JNumber(n: int) | JString(s: string) | JObject(fields: seq<(string, JsonValue)>)

  /** A SEND frame: destination and JSON body. */
  datatype Frame = Frame(destination: string, body: JsonValue)

  datatype Subscription = Subscription(id: string, topic: string)

  const ReconnectDelayMs: nat := 5000
  const AuthorizationHeader: string := "Authorization"

  /** `accessToken ? { Authorization: "Bearer " + accessToken } : {}`: a
      header only for a non-empty token. */
  function ConnectHeaders(accessToken: Option<string>): (h: map<string, string>)
    ensures AuthorizationHeader in h <==> accessToken.Some? && accessToken.value != ""
    ensures AuthorizationHeader in h ==> h[AuthorizationHeader] == BearerPrefix + accessToken.value
    ensures h.Keys <= {AuthorizationHeader}
  {
    if accessToken.Some? && accessToken.value != "" then map[AuthorizationHeader := BearerPrefix + accessToken.value]
    else map[]
  }

  /** The header value as the server looks it up: absent when not sent. */
  function AuthorizationOf(h: map<string, string>): Option<string>
  {
    if AuthorizationHeader in h then Some(h[AuthorizationHeader]) else None
  }

  /** End to end: when the page's cookies hold exactly one access_token
      cookie whose token the provider accepts, the authentication the
      server's preSend computes from the CONNECT frame built from it is
      that token's subject's; with no such cookie the frame carries no
      Authorization header at all. */
  lemma CookieTokenReachesServer(provider: TokenProvider, pairs: seq<Pair>)
    requires CookieReader.WellFormed(pairs)
    ensures var h := ConnectHeaders(GetCookieValue(AccessTokenCookie, DocumentCookie(pairs)));
            (CountName(pairs, AccessTokenCookie) == 1 && ValueOf(pairs, AccessTokenCookie) != "" &&
             provider.validate(ValueOf(pairs, AccessTokenCookie)) ==>
               ConnectUser(provider, CONNECT, AuthorizationOf(h)) ==
                 Some(Authentication(provider.subject(ValueOf(pairs, AccessTokenCookie))))) &&
            (CountName(pairs, AccessTokenCookie) != 1 ==> AuthorizationOf(h).None?)
  {
    assert WellFormedName(AccessTokenCookie) by {
      assert forall i :: 0 <= i < |AccessTokenCookie| ==> AccessTokenCookie[i] != ';' && AccessTokenCookie[i] != '=';
    }
    GetCookieValueSpec(pairs, AccessTokenCookie);
    if CountName(pairs, AccessTokenCookie) == 1 && ValueOf(pairs, AccessTokenCookie) != "" &&
       provider.validate(ValueOf(pairs, AccessTokenCookie)) {
      ClientTokenAuthenticates(provider, ValueOf(pairs, AccessTokenCookie));
    }
  }

  /** The id stompjs gives the n-th subscription of a client. */
  function SubscriptionId(n: nat): string
  {
    "sub-" + NatToString(n)
  }

  lemma SubscriptionIdsDistinct(m: nat, n: nat)
    requires m != n
    ensures SubscriptionId(m) != SubscriptionId(n)
  {
    if SubscriptionId(m) == SubscriptionId(n) {
      assert NatToString(m) == SubscriptionId(m)[4..] == SubscriptionId(n)[4..] == NatToString(n);
      assert IntToString(m) == IntToString(n);
      IntToStringInjective(m, n);
    }
  }

  /** The subscriptions without the one of this id. */
  function Remove(subs: seq<Subscription>, id: string): (r: seq<Subscription>)
    ensures forall s :: s in r <==> s in subs && s.id != id
  {
    if |subs| == 0 then []
    else if subs[0].id == id then Remove(subs[1..], id)
    else [subs[0]] + Remove(subs[1..], id)
  }

  class StompClient {
    const connectHeaders: map<string, string>
    const reconnectDelayMs: nat
    var active: bool
    var connected: bool
    var subscriptions: seq<Subscription>
    var published: seq<Frame>
    var counter: nat

    /** new Client({ connectHeaders, reconnectDelay, ... }). */
    constructor (connectHeaders: map<string, string>, reconnectDelayMs: nat)
      ensures this.connectHeaders == connectHeaders && this.reconnectDelayMs == reconnectDelayMs
      ensures !active && !connected && subscriptions == [] && published == [] && counter == 0
    {
      this.connectHeaders := connectHeaders;
      this.reconnectDelayMs := reconnectDelayMs;
      active, connected := false, false;
      subscriptions, published, counter := [], [], 0;
    }

    /** activate(): the client starts connecting, and reconnects on its own
        after every loss while it stays active. */
    method Activate()
      modifies this`active
      ensures active
    {
      active := true;
    }

    /** deactivate(): the connection is closed for good. */
    method Deactivate()
      modifies this`active, this`connected, this`subscriptions
      ensures !active && !connected && subscriptions == []
    {
      active, connected, subscriptions := false, false, [];
    }

    /** The broker accepted a CONNECT (carrying connectHeaders) of an active
        client. Each connection gets a handler of its own, so it starts with
        no subscriptions and numbers its subscriptions from 0 again. */
    method Established()
      requires active
      modifies this`connected, this`subscriptions, this`counter
      ensures connected && subscriptions == [] && counter == 0
    {
      connected, subscriptions, counter := true, [], 0;
    }

    /** The connection was lost; its subscriptions are gone with it. */
    method Lost()
      modifies this`connected, this`subscriptions
      ensures !connected && subscriptions == []
    {
      connected, subscriptions := false, [];
    }

    /** publish(): sent on a live connection; without one stompjs throws a
        TypeError and nothing is sent. */
    method Publish(f: Frame) returns (r: Result<()>)
      modifies this`published
      ensures r == if connected then Ok(()) else Throw(NoStompConnection)
      ensures published == if connected then old(published) + [f] else old(published)
    {
      if !connected {
        return Throw(NoStompConnection);
      }
      published := published + [f];
      return Ok(());
    }

    /** subscribe(): on a live connection, a new id, recorded with its
        topic; without one stompjs throws a TypeError. */
    method Subscribe(topic: string) returns (r: Result<string>)
      modifies this`subscriptions, this`counter
      ensures !connected ==> r == Throw(NoStompConnection) &&
                             subscriptions == old(subscriptions) && counter == old(counter)
      ensures connected ==> r == Ok(SubscriptionId(old(counter))) && counter == old(counter) + 1 &&
                            subscriptions == old(subscriptions) + [Subscription(r.value, topic)]
    {
      if !connected {
        return Throw(NoStompConnection);
      }
      var id := SubscriptionId(counter);
      counter := counter + 1;
      subscriptions := subscriptions + [Subscription(id, topic)];
      return Ok(id);
    }

    /** unsubscribe(): on a live connection the subscription of that id
        ends; without one stompjs throws a TypeError. */
    method Unsubscribe(id: string) returns (r: Result<()>)
      modifies this`subscriptions
      ensures r == if connected then Ok(()) else Throw(NoStompConnection)
      ensures subscriptions == if connected then Remove(old(subscriptions), id) else old(subscriptions)
    {
      if !connected {
        return Throw(NoStompConnection);
      }
      subscriptions := Remove(subscriptions, id);
      return Ok(());
    }
  }
}
