/** Bid placement and status broadcast (domain/auction/service/AuctionService.java).
    The distributed lock is an input: `locked` says whether tryLock succeeded,
    and the critical section runs atomically. */
module AuctionEngine {
  import opened Base
  import opened Decimal
  import opened AuctionConstants
  import opened RedisKeys
  import opened Redis
  import opened ProductEntity

  /** The bidder name the broadcast shows when nobody has bid. */
  const NoBidder: string := "입찰자 없음"

  /** The payload of a status broadcast (AuctionStatusResponse). */
  datatype AuctionStatusResponse = AuctionStatusResponse(currentHighestBid: int, highestBidderName: string, bidderCount: int)

  /** One message handed to the STOMP broker. */
  datatype Message = Message(destination: string, payload: AuctionStatusResponse)

  /** The members of the set stored under key, empty when there is none. */
  function Members(sets: map<Key, set<string>>, key: Key): set<string>
  {
    if key in sets then sets[key] else {}
  }

  /** Every highest-bid value in the store is a decimal numeral, as every
      writer of those keys stores String.valueOf of a long. */
  ghost predicate BidsWellFormed(values: map<Key, string>)
  {
    forall k :: k in values && k.Auction? && k.kind == HighestBid ==> ParseLong(values[k]).Some?
  }

  /** Every message so far went to an auction topic. */
  ghost predicate OnlyAuctionTopics(sent: seq<Message>)
  {
    forall i :: 0 <= i < |sent| ==> StartsWith(sent[i].destination, AuctionTopicPrefix)
  }

  /** The store after an accepted bid: new highest bid and bidder, bidder added to the set. */
  function ValuesAfterBid(values: map<Key, string>, productId: int, bidAmount: int, bidderName: string): map<Key, string>
  {
    values[Auction(productId, HighestBid) := IntToString(bidAmount)][Auction(productId, HighestBidder) := bidderName]
  }

  function SetsAfterBid(sets: map<Key, set<string>>, productId: int, bidderName: string): map<Key, set<string>>
  {
    sets[Auction(productId, BiddersSet) := Members(sets, Auction(productId, BiddersSet)) + {bidderName}]
  }

  /** What placeBid decides once it holds the lock. */
  datatype BidDecision =
    | NoSuchProduct          // findById found nothing: IllegalArgumentException
    | MalformedHighest       // the stored highest bid does not parse: NumberFormatException
    | TooLow(current: int)   // the bid does not beat the current highest: ignored
    | Accepted(current: int) // the bid beats the current highest

  /** The bid rule: the amount to beat is the stored highest bid when there is
      one, else the starting price, and a bid is accepted only when strictly greater. */
  function Decide(startingPrice: Option<int>, stored: Option<string>, bidAmount: int): (d: BidDecision)
    ensures d == NoSuchProduct <==> startingPrice.None?
    ensures d == MalformedHighest <==> startingPrice.Some? && stored.Some? && ParseLong(stored.value).None?
    ensures (d.TooLow? || d.Accepted?) ==>
              (stored.None? ==> d.current == startingPrice.value) &&
              (stored.Some? ==> ParseLong(stored.value) == Some(d.current))
    ensures d.Accepted? ==> bidAmount > d.current
    ensures d.TooLow? ==> bidAmount <= d.current
  {
    if startingPrice.None? then NoSuchProduct
    else
      var current := if stored.Some? then ParseLong(stored.value) else Some(startingPrice.value);
      if current.None? then MalformedHighest
      else if bidAmount <= current.value then TooLow(current.value)
      else Accepted(current.value)
  }

  /** The status broadcastAuctionStatus builds from the store: a missing
      highest bid reads as 0, a missing bidder as NoBidder, a missing set as 0
      bidders; a stored bid that does not parse throws. */
  function StatusFor(values: map<Key, string>, sets: map<Key, set<string>>, productId: int): (r: Result<AuctionStatusResponse>)
    ensures Auction(productId, HighestBid) !in values ==> r.Ok? && r.value.currentHighestBid == 0
    ensures Auction(productId, HighestBid) in values ==>
              match ParseLong(values[Auction(productId, HighestBid)])
              case None => r == Throw(NumberFormat)
              case Some(b) => r.Ok? && r.value.currentHighestBid == b
    ensures r.Ok? ==>
              r.value.highestBidderName == (if Auction(productId, HighestBidder) in values then values[Auction(productId, HighestBidder)] else NoBidder)
    ensures r.Ok? ==> r.value.bidderCount == |Members(sets, Auction(productId, BiddersSet))|
  {
    var bid := if Auction(productId, HighestBid) in values then ParseLong(values[Auction(productId, HighestBid)]) else Some(0);
    var bidder := if Auction(productId, HighestBidder) in values then values[Auction(productId, HighestBidder)] else NoBidder;
    if bid.None? then Throw(NumberFormat)
    else Ok(AuctionStatusResponse(bid.value, bidder, |Members(sets, Auction(productId, BiddersSet))|))
  }

  /** After an accepted bid, the broadcast carries exactly the new amount, the
      new bidder and the size of the bidder set. */
  lemma StatusAfterBid(values: map<Key, string>, sets: map<Key, set<string>>, productId: int, bidAmount: int, bidderName: string)
    ensures StatusFor(ValuesAfterBid(values, productId, bidAmount, bidderName), SetsAfterBid(sets, productId, bidderName), productId)
         == Ok(AuctionStatusResponse(bidAmount, bidderName, |Members(sets, Auction(productId, BiddersSet)) + {bidderName}|))
  {
    ParseOfIntToString(bidAmount);
  }

  /** After an accepted bid the stored highest bid reads back as the bid amount. */
  lemma StoredBidAfter(values: map<Key, string>, productId: int, bidAmount: int, bidderName: string)
    ensures Auction(productId, HighestBid) in ValuesAfterBid(values, productId, bidAmount, bidderName)
    ensures ParseLong(ValuesAfterBid(values, productId, bidAmount, bidderName)[Auction(productId, HighestBid)]) == Some(bidAmount)
  {
    ParseOfIntToString(bidAmount);
  }

  /** An accepted bid keeps every stored highest bid a numeral. */
  lemma BidKeepsWellFormed(values: map<Key, string>, productId: int, bidAmount: int, bidderName: string)
    requires BidsWellFormed(values)
    ensures BidsWellFormed(ValuesAfterBid(values, productId, bidAmount, bidderName))
  {
    ParseOfIntToString(bidAmount);
  }

  /** The bidder count of every auction never shrinks under a bid, and a
      repeat bidder leaves the sets exactly as they were. */
  lemma BidderCountMonotone(sets: map<Key, set<string>>, productId: int, bidderName: string)
    ensures forall key :: |Members(sets, key)| <= |Members(SetsAfterBid(sets, productId, bidderName), key)|
    ensures bidderName in Members(sets, Auction(productId, BiddersSet)) ==> SetsAfterBid(sets, productId, bidderName) == sets
  {
    var k := Auction(productId, BiddersSet);
    var after := SetsAfterBid(sets, productId, bidderName);
    forall key
      ensures |Members(sets, key)| <= |Members(after, key)|
    {
      if key == k {
        assert Members(sets, key) <= Members(after, key);
        SubsetCardinality(Members(sets, key), Members(after, key));
      }
    }
    if bidderName in Members(sets, k) {
      assert Members(sets, k) + {bidderName} == sets[k];
      assert after == sets;
    }
  }

  lemma SubsetCardinality(a: set<string>, b: set<string>)
    requires a <= b
    ensures |a| <= |b|
  {
    assert b == a + (b - a);
  }

  /** Deleting keys never breaks well-formedness. */
  lemma DeleteKeepsWellFormed(values: map<Key, string>, gone: set<Key>)
    requires BidsWellFormed(values)
    ensures BidsWellFormed(values - gone)
  {
  }

  /** The STOMP broker (SimpMessageSendingOperations): the messages sent, in order. */
  class Broker {
    var sent: seq<Message>

    constructor ()
      ensures sent == []
    {
      sent := [];
    }

    method ConvertAndSend(destination: string, payload: AuctionStatusResponse)
      modifies this
      ensures sent == old(sent) + [Message(destination, payload)]
    {
      sent := sent + [Message(destination, payload)];
    }
  }

  class AuctionService {
    const products: ProductRepository
    const redis: RedisStore
    const broker: Broker

    constructor (products: ProductRepository, redis: RedisStore, broker: Broker)
      ensures this.products == products && this.redis == redis && this.broker == broker
    {
      this.products := products;
      this.redis := redis;
      this.broker := broker;
    }

    /** The starting price of the product, or None when there is no such product. */
    function StartingPriceOf(productId: int): (p: Option<int>)
      reads products, products.rows
      ensures p.Some? <==> products.FindById(productId).Some?
    {
      match products.FindById(productId)
      case Some(product) => Some(product.startingPrice)
      case None => None
    }

    /** broadcastAuctionStatus: one status message to the product's topic. */
    method BroadcastAuctionStatus(productId: int) returns (r: Result<()>)
      modifies broker
      ensures StatusFor(redis.values, redis.sets, productId).Throw? ==>
                r == Throw(NumberFormat) && broker.sent == old(broker.sent)
      ensures StatusFor(redis.values, redis.sets, productId).Ok? ==>
                r == Ok(()) &&
                broker.sent == old(broker.sent) + [Message(AuctionTopicPath(productId), StatusFor(redis.values, redis.sets, productId).value)]
    {
      var highestBidStr := redis.Get(Auction(productId, HighestBid));
      var highestBidder := redis.Get(Auction(productId, HighestBidder));
      var bidderCount := redis.Size(Auction(productId, BiddersSet));
      var currentHighestBid: int;
      if highestBidStr.Some? {
        var parsed := ParseLong(highestBidStr.value);
        if parsed.None? {
          return Throw(NumberFormat);
        }
        currentHighestBid := parsed.value;
      } else {
        currentHighestBid := 0;
      }
      var status := AuctionStatusResponse(currentHighestBid, highestBidder.GetOr(NoBidder), bidderCount);
      broker.ConvertAndSend(AuctionTopicPath(productId), status);
      r := Ok(());
    }

    /** The writes of an accepted bid followed by its broadcast (lines 55-57 and 71). */
    method ApplyBid(productId: int, bidAmount: int, bidderName: string)
      modifies redis`values, redis`sets, redis`ttlMs, broker
      ensures redis.values == ValuesAfterBid(old(redis.values), productId, bidAmount, bidderName)
      ensures redis.sets == SetsAfterBid(old(redis.sets), productId, bidderName)
      ensures redis.ttlMs == old(redis.ttlMs) - {Auction(productId, HighestBid), Auction(productId, HighestBidder)}
      ensures broker.sent == old(broker.sent) + [Message(AuctionTopicPath(productId),
                AuctionStatusResponse(bidAmount, bidderName, |Members(old(redis.sets), Auction(productId, BiddersSet)) + {bidderName}|))]
    {
      ghost var values0, sets0 := redis.values, redis.sets;
      redis.Set(Auction(productId, HighestBid), IntToString(bidAmount));
      redis.Set(Auction(productId, HighestBidder), bidderName);
      redis.Add(Auction(productId, BiddersSet), bidderName);
      StatusAfterBid(values0, sets0, productId, bidAmount, bidderName);
      var _ := BroadcastAuctionStatus(productId);
    }

    /** placeBid. Without the lock, without the product, with a malformed
        stored bid or with a bid that does not beat the current highest,
        nothing is written and nothing is sent (the last case returns quietly,
        with no message to the bidder). An accepted bid writes the three keys
        and sends exactly one status to the product's topic. Every call keeps
        the stored bids numerals (so the NumberFormatException path is never
        taken from a well-formed store), sends only to auction topics (never
        to the private error queue) and never shrinks a bidder count. */
    method PlaceBid(productId: int, bidAmount: int, bidderName: string, locked: bool) returns (r: Result<()>)
      modifies redis`values, redis`sets, redis`ttlMs, broker
      ensures var d := Decide(StartingPriceOf(productId), old(redis.Get(Auction(productId, HighestBid))), bidAmount);
        !(locked && d.Accepted?) ==>
          redis.values == old(redis.values) && redis.sets == old(redis.sets) &&
          redis.ttlMs == old(redis.ttlMs) && broker.sent == old(broker.sent) &&
          r == (if !locked then Ok(()) else if d == NoSuchProduct then Throw(IllegalArgument)
                else if d == MalformedHighest then Throw(NumberFormat) else Ok(()))
      ensures var d := Decide(StartingPriceOf(productId), old(redis.Get(Auction(productId, HighestBid))), bidAmount);
        locked && d.Accepted? ==>
          r == Ok(()) &&
          redis.values == ValuesAfterBid(old(redis.values), productId, bidAmount, bidderName) &&
          redis.sets == SetsAfterBid(old(redis.sets), productId, bidderName) &&
          redis.ttlMs == old(redis.ttlMs) - {Auction(productId, HighestBid), Auction(productId, HighestBidder)} &&
          broker.sent == old(broker.sent) + [Message(AuctionTopicPath(productId),
            AuctionStatusResponse(bidAmount, bidderName, |Members(old(redis.sets), Auction(productId, BiddersSet)) + {bidderName}|))] &&
          Auction(productId, HighestBid) in redis.values &&
          ParseLong(redis.values[Auction(productId, HighestBid)]) == Some(bidAmount) && bidAmount > d.current
      ensures BidsWellFormed(old(redis.values)) ==> BidsWellFormed(redis.values) && r != Throw(NumberFormat)
      ensures OnlyAuctionTopics(old(broker.sent)) ==> OnlyAuctionTopics(broker.sent)
      ensures forall key :: |Members(old(redis.sets), key)| <= |Members(redis.sets, key)|
      ensures bidderName in Members(old(redis.sets), Auction(productId, BiddersSet)) ==> redis.sets == old(redis.sets)
    {
      BidderCountMonotone(redis.sets, productId, bidderName);
      if !locked {
        return Ok(());
      }
      var found := products.FindById(productId);
      if found.None? {
        return Throw(IllegalArgument);
      }
      var product := found.value;
      var highestBidStr := redis.Get(Auction(productId, HighestBid));
      var currentHighestBid: int;
      if highestBidStr.Some? {
        var parsed := ParseLong(highestBidStr.value);
        if parsed.None? {
          return Throw(NumberFormat);
        }
        currentHighestBid := parsed.value;
      } else {
        currentHighestBid := product.startingPrice;
      }
      if bidAmount <= currentHighestBid {
        return Ok(());
      }
      ghost var values0 := redis.values;
      ApplyBid(productId, bidAmount, bidderName);
      if BidsWellFormed(values0) {
        BidKeepsWellFormed(values0, productId, bidAmount, bidderName);
      }
      TopicIsNotErrorQueue(productId);
      StoredBidAfter(values0, productId, bidAmount, bidderName);
      r := Ok(());
    }

  }
}
