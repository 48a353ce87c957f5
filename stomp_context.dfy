/** The shared STOMP connection of frontend/src/context/StompContext.tsx: the
    provider keeps the client it created on mount, a `connected` flag that
    follows the client's connect and disconnect callbacks, and a topic-to-id
    map of the subscriptions made through it. Publishing, subscribing and
    unsubscribing do nothing while not connected, and reach the client,
    which throws when its connection is gone, while connected. */
module StompContext {
  import opened Base
  import opened Tokens
  import opened CookieReader
  import opened StompClients

  class StompProvider {
    var client: StompClient?
    var connected: bool
    var subscriptions: map<string, string>

    /** There is no connection before the client exists. `connected` follows
        onConnect and onDisconnect only: a transport loss leaves it set while
        the client has no live connection. */
    ghost predicate Valid()
      reads this
    {
      client == null ==> !connected
    }

    /** The provider believes it is connected and the client is. */
    predicate Live()
      reads this, client
    {
      connected && client != null && client.connected
    }

    /** The provider believes it is connected but the client is not: the
        client's publish, subscribe and unsubscribe throw. */
    predicate Broken()
      reads this, client
    {
      connected && client != null && !client.connected
    }

    /** Initial render: no client yet, not connected, no subscriptions. */
    constructor ()
      ensures Valid() && client == null && !connected && subscriptions == map[]
    {
      client, connected, subscriptions := null, false, map[];
    }

    /** The mount effect: the access_token cookie is read once, and the
        client is created with its connect headers and a 5000 ms
        reconnect delay, then activated. Every reconnect reuses these
        headers. */
    method Mount(documentCookie: string)
      requires Valid() && !connected
      modifies this`client
      ensures Valid() && fresh(client)
      ensures client.connectHeaders == ConnectHeaders(GetCookieValue(AccessTokenCookie, documentCookie))
      ensures client.reconnectDelayMs == ReconnectDelayMs && client.active && !client.connected
      ensures client.subscriptions == [] && client.published == []
    {
      var accessToken := GetCookieValue(AccessTokenCookie, documentCookie);
      var c := new StompClient(ConnectHeaders(accessToken), ReconnectDelayMs);
      c.Activate();
      client := c;
    }

    /** onConnect: the broker accepted the connection, first or again after
        a reconnect. */
    method OnConnect()
      requires Valid() && client != null && client.active
      modifies this`connected, client`connected, client`subscriptions, client`counter
      ensures Valid() && Live() && client.subscriptions == [] && client.counter == 0
    {
      client.Established();
      connected := true;
    }

    /** onDisconnect: the broker acknowledged a DISCONNECT; the connection
        ended. */
    method OnDisconnect()
      requires Valid() && client != null
      modifies this`connected, client`connected, client`subscriptions
      ensures Valid() && !connected && !client.connected && client.subscriptions == []
    {
      client.Lost();
      connected := false;
    }

    /** The socket closed without a DISCONNECT: stompjs drops the connection
        and schedules a reconnect, and no callback of the provider runs, so
        `connected` stays as it was. */
    method OnWebSocketClose()
      requires Valid() && client != null
      modifies client`connected, client`subscriptions
      ensures Valid() && connected == old(connected) && !client.connected && client.subscriptions == []
      ensures connected ==> Broken()
    {
      client.Lost();
    }

    /** publish: nothing while not connected; otherwise the client's
        publish, which sends on a live connection and throws without one. */
    method Publish(destination: string, body: JsonValue) returns (r: Result<()>)
      requires Valid()
      modifies if client != null then {client} else {}
      ensures Valid()
      ensures r == if old(Broken()) then Throw(NoStompConnection) else Ok(())
      ensures client != null ==>
                client.published == if old(Live()) then old(client.published) + [Frame(destination, body)]
                                    else old(client.published)
      ensures client != null ==> unchanged(client`subscriptions, client`connected, client`active, client`counter)
    {
      if connected && client != null {
        r := client.Publish(Frame(destination, body));
      } else {
        r := Ok(());
      }
    }

    /** subscribe: null while not connected; otherwise the client's
        subscribe, whose new id is recorded under the topic (replacing an
        earlier id of that topic) and returned. Without a live connection
        the client throws and nothing is recorded. */
    method Subscribe(topic: string) returns (r: Result<Option<string>>)
      requires Valid()
      modifies this`subscriptions, if client != null then {client} else {}
      ensures Valid()
      ensures !old(connected) ==> r == Ok(None)
      ensures old(Broken()) ==> r == Throw(NoStompConnection)
      ensures !old(Live()) ==> subscriptions == old(subscriptions) &&
                               (client != null ==> unchanged(client`subscriptions, client`counter))
      ensures old(Live()) ==>
                r == Ok(Some(SubscriptionId(old(client.counter)))) && client.counter == old(client.counter) + 1 &&
                subscriptions == old(subscriptions)[topic := r.value.value] &&
                client.subscriptions == old(client.subscriptions) + [Subscription(r.value.value, topic)]
      ensures client != null ==> unchanged(client`published, client`connected, client`active)
    {
      if connected && client != null {
        var subscription := client.Subscribe(topic);
        match subscription
        case Throw(e) =>
          return Throw(e);
        case Ok(id) =>
          subscriptions := subscriptions[topic := id];
          return Ok(Some(id));
      }
      return Ok(None);
    }

    /** unsubscribe: nothing while not connected; otherwise the client's
        unsubscribe, which throws without a live connection. The topic map
        is never cleaned. */
    method Unsubscribe(id: string) returns (r: Result<()>)
      requires Valid()
      modifies if client != null then {client} else {}
      ensures Valid()
      ensures subscriptions == old(subscriptions)
      ensures r == if old(Broken()) then Throw(NoStompConnection) else Ok(())
      ensures client != null ==>
                client.subscriptions == if old(Live()) then Remove(old(client.subscriptions), id)
                                        else old(client.subscriptions)
      ensures client != null ==> unchanged(client`published, client`connected, client`active, client`counter)
    {
      if connected && client != null {
        r := client.Unsubscribe(id);
      } else {
        r := Ok(());
      }
    }

    /** Unmount: the client is deactivated. */
    method Unmount()
      requires client != null
      modifies client
      ensures !client.active && !client.connected && client.subscriptions == []
      ensures client.published == old(client.published)
    {
      client.Deactivate();
    }
  }
}
