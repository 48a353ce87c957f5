/** Names of the Redis keys, the lock and the STOMP topic that belong to one
    auction (global/constant/AuctionConstants.java). A product id is a Java
    Long, rendered in decimal by string concatenation. */
module AuctionConstants {
  import opened Base
  import opened Decimal

  const AuctionTopicPrefix: string := "/topic/auctions/"
  const AuctionLockPrefix: string := "auction_lock:"
  const AuctionKeyPrefix: string := "auction:"
  const HighestBidSuffix: string := ":highestBid"
  const HighestBidderSuffix: string := ":highestBidder"
  const BiddersSetSuffix: string := ":bidders"

  function HighestBidKey(productId: int): string
  {
    AuctionKeyPrefix + IntToString(productId) + HighestBidSuffix
  }

  function HighestBidderKey(productId: int): string
  {
    AuctionKeyPrefix + IntToString(productId) + HighestBidderSuffix
  }

  function BiddersSetKey(productId: int): string
  {
    AuctionKeyPrefix + IntToString(productId) + BiddersSetSuffix
  }

  function AuctionLockKey(productId: int): string
  {
    AuctionLockPrefix + IntToString(productId)
  }

  function AuctionTopicPath(productId: int): string
  {
    AuctionTopicPrefix + IntToString(productId)
  }

  /** The three kinds of per-auction key. */
  datatype KeyKind = HighestBid | HighestBidder | BiddersSet

  function Suffix(kind: KeyKind): string
  {
    match kind
    case HighestBid => HighestBidSuffix
    case HighestBidder => HighestBidderSuffix
    case BiddersSet => BiddersSetSuffix
  }

  /** The key of the given kind for one product: the builder of that kind. */
  function AuctionKey(productId: int, kind: KeyKind): (k: string)
    ensures kind == HighestBid ==> k == HighestBidKey(productId)
    ensures kind == HighestBidder ==> k == HighestBidderKey(productId)
    ensures kind == BiddersSet ==> k == BiddersSetKey(productId)
  {
    AuctionKeyPrefix + IntToString(productId) + Suffix(kind)
  }

  /** If a + s == b + t where neither a nor b contains ':' and both s and t
      start with ':', the split is the same on both sides. */
  lemma SplitAtFirstColon(a: string, s: string, b: string, t: string)
    requires forall i :: 0 <= i < |a| ==> a[i] != ':'
    requires forall i :: 0 <= i < |b| ==> b[i] != ':'
    requires |s| > 0 && s[0] == ':' && |t| > 0 && t[0] == ':'
    requires a + s == b + t
    ensures a == b && s == t
  {
    var x := a + s;
    assert x[|a|] == ':' && x[|b|] == ':';
    assert forall i :: 0 <= i < |a| ==> x[i] != ':';
    assert forall i :: 0 <= i < |b| ==> x[i] != ':';
    assert |a| == |b|;
    assert a == (a + s)[..|a|];
    assert b == (b + t)[..|b|];
    assert s == (a + s)[|a|..];
    assert t == (b + t)[|b|..];
  }

  lemma StripPrefix(p: string, x: string, y: string)
    requires p + x == p + y
    ensures x == y
  {
    assert x == (p + x)[|p|..];
    assert y == (p + y)[|p|..];
  }

  /** Splitting "auction:" + digits + suffix back into its parts. */
  lemma KeyParts(d1: string, s1: string, d2: string, s2: string)
    requires forall i :: 0 <= i < |d1| ==> d1[i] != ':'
    requires forall i :: 0 <= i < |d2| ==> d2[i] != ':'
    requires |s1| > 0 && s1[0] == ':' && |s2| > 0 && s2[0] == ':'
    requires AuctionKeyPrefix + d1 + s1 == AuctionKeyPrefix + d2 + s2
    ensures d1 == d2 && s1 == s2
  {
    var p := AuctionKeyPrefix;
    assert p + d1 + s1 == p + (d1 + s1);
    assert p + d2 + s2 == p + (d2 + s2);
    StripPrefix(p, d1 + s1, d2 + s2);
    SplitAtFirstColon(d1, s1, d2, s2);
  }

  lemma SuffixInjective(k1: KeyKind, k2: KeyKind)
    requires Suffix(k1) == Suffix(k2)
    ensures k1 == k2
  {
    assert |Suffix(k1)| == |Suffix(k2)|;
  }

  /** Every per-auction key names exactly one (product, kind) pair: keys of
      distinct products are distinct, and so are the three keys of one product. */
  lemma AuctionKeyInjective(id1: int, k1: KeyKind, id2: int, k2: KeyKind)
    requires AuctionKey(id1, k1) == AuctionKey(id2, k2)
    ensures id1 == id2 && k1 == k2
  {
    IntToStringAvoids(id1, ':');
    IntToStringAvoids(id2, ':');
    assert Suffix(k1)[0] == ':' && Suffix(k2)[0] == ':';
    KeyParts(IntToString(id1), Suffix(k1), IntToString(id2), Suffix(k2));
    IntToStringInjective(id1, id2);
    SuffixInjective(k1, k2);
  }

  lemma ThreeKeysDistinct(productId: int)
    ensures HighestBidKey(productId) != HighestBidderKey(productId)
    ensures HighestBidKey(productId) != BiddersSetKey(productId)
    ensures HighestBidderKey(productId) != BiddersSetKey(productId)
  {
    var d := IntToString(productId);
    assert |HighestBidKey(productId)| == 8 + |d| + 11;
    assert |HighestBidderKey(productId)| == 8 + |d| + 14;
    assert |BiddersSetKey(productId)| == 8 + |d| + 8;
  }

  /** Keys of different products never collide, whatever their kinds. */
  lemma DistinctProductsDistinctKeys(id1: int, id2: int)
    requires id1 != id2
    ensures forall k1, k2 :: AuctionKey(id1, k1) != AuctionKey(id2, k2)
  {
    forall k1: KeyKind, k2: KeyKind
      ensures AuctionKey(id1, k1) != AuctionKey(id2, k2)
    {
      if AuctionKey(id1, k1) == AuctionKey(id2, k2) {
        AuctionKeyInjective(id1, k1, id2, k2);
      }
    }
  }

  /** The lock name is never one of the "auction:"-prefixed keys: the two
      prefixes differ at their eighth character. */
  lemma LockKeyIsNoAuctionKey(lockId: int, productId: int, kind: KeyKind)
    ensures AuctionLockKey(lockId) != AuctionKey(productId, kind)
  {
    assert AuctionLockKey(lockId)[7] == '_';
    assert AuctionKey(productId, kind)[7] == ':';
  }

  /** Topics of distinct products are distinct, so a broadcast reaches only
      the subscribers of its own product. */
  lemma TopicPathInjective(id1: int, id2: int)
    requires AuctionTopicPath(id1) == AuctionTopicPath(id2)
    ensures id1 == id2
  {
    var p := AuctionTopicPrefix;
    assert IntToString(id1) == AuctionTopicPath(id1)[|p|..];
    assert IntToString(id2) == AuctionTopicPath(id2)[|p|..];
    IntToStringInjective(id1, id2);
  }

  /** A topic path is never the private error queue the client listens on. */
  lemma TopicIsNotErrorQueue(productId: int)
    ensures AuctionTopicPath(productId) != "/user/queue/errors"
    ensures StartsWith(AuctionTopicPath(productId), AuctionTopicPrefix)
  {
    assert AuctionTopicPath(productId)[1] == 't';
    assert AuctionTopicPath(productId)[..|AuctionTopicPrefix|] == AuctionTopicPrefix;
  }
}
