/** The keys the back end reads and writes in Redis, by what they name. The
    store is indexed by these structured keys; RenderInjective shows that
    their string forms never collide, so this is the same as indexing by
    the strings the code builds. */
module RedisKeys {
  import opened Base
  import opened Decimal
  import opened AuctionConstants

  /** Prefix of the refresh-token entry of one user (OAuth2LoginSuccessHandler, AuthController). */
  const RefreshTokenPrefix: string := "RT:"

  datatype Key =
    | Auction(productId: int, kind: KeyKind)   // auction:{id}:highestBid, :highestBidder, :bidders
    | RefreshToken(email: string)              // RT:{email}

  /** The string the code builds for a key. */
  function Render(k: Key): (s: string)
    ensures k.Auction? ==> s == AuctionKey(k.productId, k.kind)
    ensures k.RefreshToken? ==> s == RefreshTokenPrefix + k.email
  {
    match k
    case Auction(id, kind) => AuctionKey(id, kind)
    case RefreshToken(email) => RefreshTokenPrefix + email
  }

  /** Distinct keys have distinct strings: auction keys start with 'a' and
      refresh-token keys with 'R', and within each family the parts are
      recovered from the string. */
  lemma RenderInjective(k1: Key, k2: Key)
    requires Render(k1) == Render(k2)
    ensures k1 == k2
  {
    FirstChar(k1);
    FirstChar(k2);
    match k1 {
      case Auction(id1, kind1) =>
        match k2 {
          case Auction(id2, kind2) =>
            AuctionKeyInjective(id1, kind1, id2, kind2);
          case RefreshToken(_) =>
        }
      case RefreshToken(e1) =>
        match k2 {
          case Auction(_, _) =>
          case RefreshToken(e2) =>
            StripPrefix(RefreshTokenPrefix, e1, e2);
        }
    }
  }

  /** The first character tells the two families apart. */
  lemma FirstChar(k: Key)
    ensures |Render(k)| > 0 && Render(k)[0] == (if k.Auction? then 'a' else 'R')
  {
  }

  /** The three keys that hold the live state of one auction. */
  function AuctionKeys(productId: int): (ks: set<Key>)
    ensures |ks| == 3
    ensures forall k: Key :: k in ks <==> k.Auction? && k.productId == productId
  {
    assert forall k: Key :: k.Auction? ==> k.kind.HighestBid? || k.kind.HighestBidder? || k.kind.BiddersSet?;
    {Auction(productId, HighestBid), Auction(productId, HighestBidder), Auction(productId, BiddersSet)}
  }
}
