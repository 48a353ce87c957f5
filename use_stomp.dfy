/** The per-component STOMP connection of frontend/src/hooks/useStomp.ts:
    the effect opens a client of its own for one topic and subscribes to
    that topic each time the broker accepts the connection; `publish`
    sends only on a live connection and otherwise logs an error. */
module UseStomp {
  import opened Base
  import opened Tokens
  import opened CookieReader
  import opened StompClients

  class StompHook {
    const topic: string
    var client: StompClient?
    /** console.error calls of `publish`. */
    var errorsLogged: nat

    /** While connected, the client holds exactly one subscription: the
        one to this hook's topic. */
    ghost predicate Valid()
      reads this, client
    {
      client != null && client.connected ==>
        |client.subscriptions| == 1 && client.subscriptions[0].topic == topic
    }

    constructor (topic: string)
      ensures this.topic == topic && client == null && errorsLogged == 0 && Valid()
    {
      this.topic := topic;
      client, errorsLogged := null, 0;
    }

    /** The effect: nothing for an empty topic; otherwise a new client with
        the access_token cookie's connect headers and a 5000 ms reconnect
        delay, activated. */
    method Effect(documentCookie: string)
      requires Valid()
      modifies this`client
      ensures Valid()
      ensures topic == "" ==> client == old(client)
      ensures topic != "" ==>
                fresh(client) && client.active && !client.connected &&
                client.connectHeaders == ConnectHeaders(GetCookieValue(AccessTokenCookie, documentCookie)) &&
                client.reconnectDelayMs == ReconnectDelayMs &&
                client.subscriptions == [] && client.published == []
    {
      if topic != "" {
        var accessToken := GetCookieValue(AccessTokenCookie, documentCookie);
        var c := new StompClient(ConnectHeaders(accessToken), ReconnectDelayMs);
        c.Activate();
        client := c;
      }
    }

    /** onConnect: a fresh connection, then the subscription to the topic. */
    method OnConnect()
      requires client != null && client.active
      modifies client`connected, client`subscriptions, client`counter
      ensures Valid() && client.connected
      ensures client.subscriptions == [Subscription(SubscriptionId(0), topic)] && client.counter == 1
    {
      client.Established();
      var _ := client.Subscribe(topic);
    }

    /** The connection was lost; stompjs reconnects while the client stays
        active, and onConnect subscribes again. */
    method OnConnectionLost()
      requires client != null
      modifies client`connected, client`subscriptions
      ensures Valid() && !client.connected && client.subscriptions == []
    {
      client.Lost();
    }

    /** publish: sent on a live connection, otherwise an error is logged
        and nothing is sent. */
    method Publish(destination: string, body: JsonValue)
      requires Valid()
      modifies this`errorsLogged, if client != null then {client} else {}
      ensures Valid()
      ensures old(client != null && client.connected) ==>
                client.published == old(client.published) + [Frame(destination, body)] &&
                errorsLogged == old(errorsLogged)
      ensures !old(client != null && client.connected) ==>
                errorsLogged == old(errorsLogged) + 1 &&
                (client != null ==> client.published == old(client.published))
      ensures client != null ==> unchanged(client`subscriptions, client`connected, client`active, client`counter)
    {
      if client != null && client.connected {
        var _ := client.Publish(Frame(destination, body));
      } else {
        errorsLogged := errorsLogged + 1;
      }
    }

    /** The effect's cleanup: the client, when there is one, is deactivated. */
    method Cleanup()
      requires Valid()
      modifies if client != null then {client} else {}
      ensures Valid()
      ensures client != null ==> !client.active && !client.connected && client.subscriptions == [] &&
                                 client.published == old(client.published)
    {
      if client != null {
        client.Deactivate();
      }
    }
  }
}
