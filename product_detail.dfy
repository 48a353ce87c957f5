/** The live parts of frontend/src/pages/ProductDetailPage.tsx: the two
    functions that patch the cached product with a status broadcast, the
    subscriptions the page makes through the shared STOMP connection, the
    bid form and the rule that shows it. The cached product is the JSON
    object the detail endpoint returned, a map from field names to values. */
module ProductDetail {
  import opened Base
  import opened Decimal
  import opened AuctionConstants
  import opened ProductEntity
  import opened AuctionEngine
  import opened StompClients
  import opened StompContext

  type Entry = map<string, JsonValue>

  const CurrentPrice: string := "currentPrice"
  const HighestBidderName: string := "highestBidderName"
  const BidderCount: string := "bidderCount"
  const BidDestination: string := "/app/auctions/bid"
  const ErrorQueue: string := "/user/queue/errors"

  /** The three fields a broadcast carries, under the cached product's names. */
  function LiveFields(status: AuctionStatusResponse): (f: Entry)
    ensures f.Keys == {CurrentPrice, HighestBidderName, BidderCount}
  {
    map[CurrentPrice := JNumber(status.currentHighestBid),
        HighestBidderName := JString(status.highestBidderName),
        BidderCount := JNumber(status.bidderCount)]
  }

  /** `{...oldData, currentPrice, highestBidderName, bidderCount}` of a cached object. */
  function Spread(old_: Entry, status: AuctionStatusResponse): Entry
  {
    old_ + LiveFields(status)
  }

  /** The patch of the page's own topic hook: no cached product stays no
      cached product. */
  function LivePatch(cached: Option<Entry>, status: AuctionStatusResponse): (r: Option<Entry>)
    ensures r.Some? <==> cached.Some?
  {
    if cached.None? then None else Some(Spread(cached.value, status))
  }

  /** The patch of the subscription made through the shared connection:
      it spreads whatever is cached, an undefined entry included. */
  function ContextPatch(cached: Option<Entry>, status: AuctionStatusResponse): Entry
  {
    Spread(cached.GetOr(map[]), status)
  }

  /** A patch writes the broadcast's three values and keeps every other
      cached field as it was. */
  lemma PatchFields(cached: Entry, status: AuctionStatusResponse)
    ensures var p := Spread(cached, status);
            p.Keys == cached.Keys + {CurrentPrice, HighestBidderName, BidderCount} &&
            p[CurrentPrice] == JNumber(status.currentHighestBid) &&
            p[HighestBidderName] == JString(status.highestBidderName) &&
            p[BidderCount] == JNumber(status.bidderCount) &&
            forall k :: k in cached && k !in {CurrentPrice, HighestBidderName, BidderCount} ==> p[k] == cached[k]
  {
  }

  /** Applying a broadcast twice is applying it once, and a later broadcast
      fully replaces an earlier one: only the latest status shows. */
  lemma PatchLastWins(cached: Option<Entry>, first: AuctionStatusResponse, second: AuctionStatusResponse)
    ensures LivePatch(LivePatch(cached, first), second) == LivePatch(cached, second)
    ensures ContextPatch(Some(ContextPatch(cached, first)), second) == ContextPatch(cached, second)
  {
    if cached.Some? {
      SpreadLastWins(cached.value, first, second);
    }
    SpreadLastWins(cached.GetOr(map[]), first, second);
  }

  lemma SpreadLastWins(e: Entry, first: AuctionStatusResponse, second: AuctionStatusResponse)
    ensures Spread(Spread(e, first), second) == Spread(e, second)
  {
    assert LiveFields(first).Keys == LiveFields(second).Keys;
  }

  lemma PatchIdempotent(cached: Option<Entry>, status: AuctionStatusResponse)
    ensures LivePatch(LivePatch(cached, status), status) == LivePatch(cached, status)
    ensures ContextPatch(Some(ContextPatch(cached, status)), status) == ContextPatch(cached, status)
  {
    PatchLastWins(cached, status, status);
  }

  /** The page subscribes to its topic twice, so each broadcast runs both
      patches, in either order; on a cached product they agree, and
      running both is running either one. Without a cached product the
      live patch leaves nothing while the other creates an object holding
      only the three live fields. */
  lemma PatchesAgree(cached: Option<Entry>, status: AuctionStatusResponse)
    ensures cached.Some? ==> LivePatch(cached, status) == Some(ContextPatch(cached, status))
    ensures cached.Some? ==> ContextPatch(LivePatch(cached, status), status) == ContextPatch(cached, status)
    ensures cached.Some? ==> LivePatch(Some(ContextPatch(cached, status)), status) == LivePatch(cached, status)
    ensures cached.None? ==> LivePatch(cached, status).None? &&
                             ContextPatch(cached, status) == LiveFields(status)
  {
    if cached.Some? {
      SpreadLastWins(cached.value, status, status);
    } else {
      assert map[] + LiveFields(status) == LiveFields(status);
    }
  }

  /** A status broadcast by the server reaches the page's cache unchanged:
      the patched fields are the bid, bidder and count the server read. */
  lemma BroadcastShown(values: map<RedisKeys.Key, string>, sets: map<RedisKeys.Key, set<string>>,
                       productId: int, cached: Entry)
    requires StatusFor(values, sets, productId).Ok?
    ensures var status := StatusFor(values, sets, productId).value;
            var p := Spread(cached, status);
            p[CurrentPrice] == JNumber(status.currentHighestBid) &&
            p[BidderCount] == JNumber(|Members(sets, RedisKeys.Auction(productId, BiddersSet))|)
  {
  }

  /** `Number(s)` as JSON.stringify writes it: a number for a decimal
      integer, null (NaN) otherwise. */
  function NumberOf(s: string): (v: JsonValue)
    ensures v.JNumber? <==> ParseLong(s).Some?
    ensures v.JNumber? ==> v.n == ParseLong(s).value
  {
    match ParseLong(s)
    case Some(n) => JNumber(n)
    case None => JNull
  }

  /** The body of a bid: `{ productId: Number(productId), bidAmount: Number(bidAmount) }`. */
  function BidBody(productId: string, amount: int): JsonValue
  {
    JObject([("productId", NumberOf(productId)), ("bidAmount", JNumber(amount))])
  }

  /** A page reached through a product's link sends that product's id. */
  lemma BidBodyCarriesId(id: int, amount: int)
    ensures BidBody(IntToString(id), amount) == JObject([("productId", JNumber(id)), ("bidAmount", JNumber(amount))])
  {
    ParseOfIntToString(id);
  }

  /** The bid input: `''` or a number. */
  datatype BidInput = Empty | Amount(n: int)

  /** JavaScript truthiness of the input: neither `''` nor 0. */
  predicate Truthy(b: BidInput)
  {
    b.Amount? && b.n != 0
  }

  /** `isAuctionEnded` (end time passed, or sold out) negated, and logged in.
      Times are one clock's integer instants. */
  function CanBid(isLoggedIn: bool, auctionEndTime: int, now: int, status: ProductStatus): (r: bool)
    ensures r ==> isLoggedIn && status == SELLING
  {
    var isAuctionEnded := auctionEndTime < now || status == SOLD_OUT;
    !isAuctionEnded && isLoggedIn
  }

  /** The form is shown exactly to a logged-in user of a selling product
      whose end time has not passed; a closed auction never shows it. */
  lemma CanBidExactly(isLoggedIn: bool, auctionEndTime: int, now: int, d: ProductData,
                      winner: Option<Users.User>, price: Option<int>)
    ensures CanBid(isLoggedIn, auctionEndTime, now, d.status) <==>
              isLoggedIn && now <= auctionEndTime && d.status == SELLING
    ensures !CanBid(isLoggedIn, auctionEndTime, now, Closed(d, winner, price).status)
  {
  }

  class ProductDetailPage {
    const productId: string
    var bidAmount: BidInput
    var auctionSubId: Option<string>
    var errorSubId: Option<string>

    constructor (productId: string)
      ensures this.productId == productId && bidAmount == Empty
      ensures auctionSubId == None && errorSubId == None
    {
      this.productId := productId;
      bidAmount, auctionSubId, errorSubId := Empty, None, None;
    }

    /** The subscription effect: nothing without a product id; otherwise
        the auction topic and then the error queue through the shared
        connection, which yields ids only while connected. A subscribe that
        throws ends the effect there, and no cleanup is registered. */
    method SubscribeEffect(provider: StompProvider) returns (r: Result<()>)
      requires provider.Valid()
      modifies this`auctionSubId, this`errorSubId, provider`subscriptions,
               if provider.client != null then {provider.client} else {}
      ensures provider.Valid()
      ensures productId == "" ==> r == Ok(()) && auctionSubId == old(auctionSubId) && errorSubId == old(errorSubId) &&
                                  provider.subscriptions == old(provider.subscriptions)
      ensures productId != "" && !old(provider.Live()) ==>
                auctionSubId == None && errorSubId == None && provider.subscriptions == old(provider.subscriptions) &&
                r == (if old(provider.Broken()) then Throw(NoStompConnection) else Ok(()))
      ensures productId != "" && old(provider.Live()) ==>
                r == Ok(()) && auctionSubId.Some? && errorSubId.Some? && auctionSubId != errorSubId &&
                provider.subscriptions ==
                  old(provider.subscriptions)[AuctionTopicPrefix + productId := auctionSubId.value][ErrorQueue := errorSubId.value] &&
                provider.client.subscriptions ==
                  old(provider.client.subscriptions) +
                  [Subscription(auctionSubId.value, AuctionTopicPrefix + productId), Subscription(errorSubId.value, ErrorQueue)]
      ensures provider.client != null && !old(provider.Live()) ==> unchanged(provider.client`subscriptions)
      ensures provider.client != null ==> unchanged(provider.client`published)
    {
      if productId == "" {
        return Ok(());
      }
      var auction := provider.Subscribe(AuctionTopicPrefix + productId);
      match auction
      case Throw(e) =>
        auctionSubId, errorSubId := None, None;
        return Throw(e);
      case Ok(auctionId) =>
        var error := provider.Subscribe(ErrorQueue);
        match error
        case Throw(_) =>
          // the first subscribe did not throw, and nothing ran in between
          assert false;
        case Ok(errorId) =>
          auctionSubId, errorSubId := auctionId, errorId;
          if old(provider.Live()) {
            SubscriptionIdsDistinct(old(provider.client.counter), old(provider.client.counter) + 1);
          }
          return Ok(());
    }

    /** The effect's cleanup: only the ids that were returned are
        unsubscribed, the auction topic's first; one that throws skips
        the rest. */
    method Cleanup(provider: StompProvider) returns (r: Result<()>)
      requires provider.Valid()
      modifies if provider.client != null then {provider.client} else {}
      ensures provider.Valid()
      ensures r == if old(provider.Broken()) && (auctionSubId.Some? || errorSubId.Some?) then Throw(NoStompConnection)
                   else Ok(())
      ensures provider.client != null ==>
                provider.client.subscriptions ==
                  if old(provider.Live()) then
                    (var afterAuction := if auctionSubId.Some? then Remove(old(provider.client.subscriptions), auctionSubId.value)
                                         else old(provider.client.subscriptions);
                     if errorSubId.Some? then Remove(afterAuction, errorSubId.value) else afterAuction)
                  else old(provider.client.subscriptions)
      ensures provider.client != null ==> unchanged(provider.client`published)
    {
      r := Ok(());
      if auctionSubId.Some? {
        r := provider.Unsubscribe(auctionSubId.value);
        if r.Throw? {
          return;
        }
      }
      if errorSubId.Some? {
        r := provider.Unsubscribe(errorSubId.value);
      }
    }

    /** handleBidSubmit: with a login, a product id and a truthy amount, the
        bid goes to the shared connection (which drops it when not
        connected) and the input is cleared; a publish that throws leaves
        the input as it was. Otherwise nothing happens. */
    method SubmitBid(isLoggedIn: bool, provider: StompProvider) returns (r: Result<()>)
      requires provider.Valid()
      modifies this`bidAmount, if provider.client != null then {provider.client} else {}
      ensures provider.Valid()
      ensures var sends := isLoggedIn && productId != "" && Truthy(old(bidAmount));
              r == (if sends && old(provider.Broken()) then Throw(NoStompConnection) else Ok(())) &&
              bidAmount == (if sends && !old(provider.Broken()) then Empty else old(bidAmount)) &&
              (provider.client != null ==>
                 provider.client.published ==
                   if sends && old(provider.Live())
                   then old(provider.client.published) + [Frame(BidDestination, BidBody(productId, old(bidAmount).n))]
                   else old(provider.client.published))
      ensures provider.client != null ==> unchanged(provider.client`subscriptions)
    {
      r := Ok(());
      if isLoggedIn && productId != "" && Truthy(bidAmount) {
        r := provider.Publish(BidDestination, BidBody(productId, bidAmount.n));
        if r.Ok? {
          bidAmount := Empty;
        }
      }
    }

    /** The input's onChange: `Number(e.target.value)`, so clearing the
        field stores 0, which is not truthy. */
    method ChangeAmount(n: int)
      modifies this`bidAmount
      ensures bidAmount == Amount(n) && (n == 0 ==> !Truthy(bidAmount))
    {
      bidAmount := Amount(n);
    }
  }
}
