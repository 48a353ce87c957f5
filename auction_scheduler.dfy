/** The periodic auction closing (domain/auction/scheduler/AuctionScheduler.java).
    The clock reading is the parameter `now`; the fixed-rate timer is not modelled. */
module AuctionClosing {
  import opened Base
  import opened Decimal
  import opened AuctionConstants
  import opened RedisKeys
  import opened Redis
  import opened Users
  import opened ProductEntity
  import opened AuctionEngine

  /** findByAuctionEndTimeBeforeAndStatus(now, SELLING): the products whose
      end time is strictly before now and that are still SELLING. The query
      has no ORDER BY; the model keeps them in table order. */
  function Selected(ps: seq<Product>, now: int): (r: seq<Product>)
    reads ps
    ensures |r| <= |ps|
    ensures forall i :: 0 <= i < |r| ==> r[i] in ps && r[i].auctionEndTime < now && r[i].status == SELLING
    ensures forall i :: 0 <= i < |ps| && ps[i].auctionEndTime < now && ps[i].status == SELLING ==> ps[i] in r
  {
    if |ps| == 0 then []
    else (if ps[0].auctionEndTime < now && ps[0].status == SELLING then [ps[0]] else []) + Selected(ps[1..], now)
  }

  /** The ids of the products Selected picks, read off the ids of all products. */
  ghost function SelectedIds(ps: seq<Product>, ids: seq<int>, now: int): (r: seq<int>)
    reads ps
    requires |ids| == |ps|
    ensures |r| == |Selected(ps, now)|
  {
    if |ps| == 0 then []
    else (if ps[0].auctionEndTime < now && ps[0].status == SELLING then [ids[0]] else []) + SelectedIds(ps[1..], ids[1..], now)
  }

  /** Dropping the first product keeps the ids unique. */
  lemma HasIdsTail(ps: seq<Product>, ids: seq<int>)
    requires HasIds(ps, ids) && |ps| > 0
    ensures HasIds(ps[1..], ids[1..]) && ids[0] !in ids[1..]
  {
    forall j | 0 <= j < |ps| - 1
      ensures ids[1..][j] !in ids[1..][..j] && ids[1..][j] != ids[0]
    {
      assert ids[1..][..j] == ids[1..j + 1];
      assert ids[..j + 1][0] == ids[0];
    }
  }

  /** The selection keeps ids unique, and picks ids of the table. */
  lemma {:induction false} SelectedHasIds(ps: seq<Product>, ids: seq<int>, now: int)
    requires HasIds(ps, ids)
    ensures HasIds(Selected(ps, now), SelectedIds(ps, ids, now))
    ensures forall x :: x in SelectedIds(ps, ids, now) ==> x in ids
  {
    if |ps| > 0 {
      HasIdsTail(ps, ids);
      SelectedHasIds(ps[1..], ids[1..], now);
      var rest := SelectedIds(ps[1..], ids[1..], now);
      var restPs := Selected(ps[1..], now);
      if ps[0].auctionEndTime < now && ps[0].status == SELLING {
        assert Selected(ps, now) == [ps[0]] + restPs;
        assert SelectedIds(ps, ids, now) == [ids[0]] + rest;
        assert ids[0] !in rest;
        HasIdsCons(ps[0], ids[0], restPs, rest);
      } else {
        assert Selected(ps, now) == restPs;
        assert SelectedIds(ps, ids, now) == rest;
      }
    }
  }

  /** A product with a fresh id in front of a list with unique ids. */
  lemma HasIdsCons(p: Product, id: int, ps: seq<Product>, ids: seq<int>)
    requires HasIds(ps, ids) && p.id == Some(id) && id !in ids
    ensures HasIds([p] + ps, [id] + ids)
  {
    var ps', ids' := [p] + ps, [id] + ids;
    forall j | 1 <= j < |ps'|
      ensures ps'[j].id == Some(ids'[j]) && ids'[j] !in ids'[..j]
    {
      assert ps'[j] == ps[j - 1] && ids'[j] == ids[j - 1];
      assert ids'[..j] == [id] + ids[..j - 1];
    }
  }

  /** The outcome of one closed auction. */
  datatype Settlement = Settlement(winner: Option<User>, winningPrice: Option<int>)

  /** The settlement rule: a winner (with the parsed price) only when both the
      bidder and the bid are stored and the bidder is still a user; otherwise
      neither winner nor price. */
  function Settle(bidderEmail: Option<string>, bidStr: Option<string>, users: map<string, User>): (s: Settlement)
    requires bidStr.Some? ==> ParseLong(bidStr.value).Some?
    ensures s.winner.Some? <==> s.winningPrice.Some?
    ensures s.winner.Some? <==> bidderEmail.Some? && bidStr.Some? && bidderEmail.value in users
    ensures s.winner.Some? ==>
              s.winner.value == users[bidderEmail.value] && ParseLong(bidStr.value) == Some(s.winningPrice.value)
  {
    if bidderEmail.Some? && bidStr.Some? then
      if bidderEmail.value in users then
        Settlement(Some(users[bidderEmail.value]), Some(ParseLong(bidStr.value).value))
      else Settlement(None, None)
    else Settlement(None, None)
  }

  /** The settlement of product `id` read from a store. */
  function SettlementIn(values: map<Key, string>, id: int, users: map<string, User>): Settlement
    requires BidsWellFormed(values)
  {
    var bid := if Auction(id, HighestBid) in values then Some(values[Auction(id, HighestBid)]) else None;
    var bidder := if Auction(id, HighestBidder) in values then Some(values[Auction(id, HighestBidder)]) else None;
    Settle(bidder, bid, users)
  }

  /** The three fields closeAuction sets, as a settlement dictates; with the
      field-level frames of the methods below, all other fields are untouched. */
  predicate ClosedWith(p: Product, s: Settlement)
    reads p`status, p`winner, p`winningPrice
  {
    p.status == SOLD_OUT && p.winner == s.winner && p.winningPrice == s.winningPrice
  }

  /** The first n listed products are closed with their settlements in `start`. */
  ghost predicate ClosedUpTo(ps: seq<Product>, ids: seq<int>, n: nat, start: map<Key, string>, users: map<string, User>)
    reads ps`status, ps`winner, ps`winningPrice
  {
    BidsWellFormed(start) && n <= |ps| && n <= |ids| &&
    forall j :: 0 <= j < n ==> ClosedWith(ps[j], SettlementIn(start, ids[j], users))
  }

  /** The fields closeAuction sets are unchanged. */
  twostate predicate Untouched(p: Product)
    reads p
  {
    p.status == old(p.status) && p.winner == old(p.winner) && p.winningPrice == old(p.winningPrice)
  }

  /** A store map without the auction keys of the products `ids`. */
  function Without<V>(m: map<Key, V>, ids: seq<int>): map<Key, V>
  {
    map k | k in m && !(k.Auction? && k.productId in ids) :: m[k]
  }

  /** Nothing is removed for no products. */
  lemma WithoutNone<V>(m: map<Key, V>)
    ensures Without(m, []) == m
  {
  }

  /** Removing one more product's keys is deleting its three keys. */
  lemma WithoutOneMore<V>(m: map<Key, V>, ids: seq<int>, id: int)
    ensures Without(m, ids + [id]) == Without(m, ids) - AuctionKeys(id)
  {
  }

  /** Deleting other products' keys does not change what a product settles to. */
  lemma SettlementUnaffected(values: map<Key, string>, ids: seq<int>, id: int, users: map<string, User>)
    requires BidsWellFormed(values) && id !in ids
    ensures BidsWellFormed(Without(values, ids))
    ensures SettlementIn(Without(values, ids), id, users) == SettlementIn(values, id, users)
  {
  }

  /** With nothing that qualifies, the selection is empty. */
  lemma {:induction false} NothingSelected(ps: seq<Product>, now: int)
    requires forall i :: 0 <= i < |ps| ==> !(ps[i].auctionEndTime < now && ps[i].status == SELLING)
    ensures Selected(ps, now) == []
  {
    if |ps| > 0 {
      NothingSelected(ps[1..], now);
    }
  }

  /** The three deletes of one product remove exactly its auction keys. */
  lemma DeleteThree<V>(m: map<Key, V>, id: int)
    ensures m - {Auction(id, HighestBid)} - {Auction(id, HighestBidder)} - {Auction(id, BiddersSet)} == m - AuctionKeys(id)
  {
  }

  /** A product the selection leaves out does not qualify for closing. */
  lemma {:induction false} LeftOutDoesNotQualify(ps: seq<Product>, now: int)
    ensures forall i :: 0 <= i < |ps| && ps[i] !in Selected(ps, now) ==>
      !(ps[i].auctionEndTime < now && ps[i].status == SELLING)
  {
    if |ps| > 0 {
      LeftOutDoesNotQualify(ps[1..], now);
      forall i | 1 <= i < |ps| && ps[i] !in Selected(ps, now)
        ensures !(ps[i].auctionEndTime < now && ps[i].status == SELLING)
      {
        assert ps[1..][i - 1] == ps[i];
      }
    }
  }

  /** The store holds what it held before, less the auction keys of the products `ids`. */
  ghost predicate StoreWithout(r: RedisStore, values: map<Key, string>, sets: map<Key, set<string>>, ttlMs: map<Key, nat>, ids: seq<int>)
    reads r
  {
    r.values == Without(values, ids) && r.sets == Without(sets, ids) && r.ttlMs == Without(ttlMs, ids)
  }

  /** The loop of closeAuctions has closed the first n products and deleted their keys. */
  ghost predicate Progress(r: RedisStore, ps: seq<Product>, ids: seq<int>, n: nat, values: map<Key, string>,
                           sets: map<Key, set<string>>, ttlMs: map<Key, nat>, users: map<string, User>)
    reads r, ps`status, ps`winner, ps`winningPrice
  {
    ClosedUpTo(ps, ids, n, values, users) && StoreWithout(r, values, sets, ttlMs, ids[..n])
  }

  /** Closed products are SOLD_OUT. */
  lemma SoldOut(ps: seq<Product>, ids: seq<int>, values: map<Key, string>, users: map<string, User>)
    requires ClosedUpTo(ps, ids, |ps|, values, users)
    ensures forall p :: p in ps ==> p.status == SOLD_OUT
  {
  }

  /** Once every selected product is closed and the products left out still
      do not qualify, a second selection finds nothing. */
  lemma NothingLeft(rows: seq<Product>, closed: seq<Product>, now: int)
    requires forall p :: p in closed ==> p.status == SOLD_OUT
    requires forall i :: 0 <= i < |rows| && rows[i] !in closed ==>
      !(rows[i].auctionEndTime < now && rows[i].status == SELLING)
    ensures Selected(rows, now) == []
  {
    NothingSelected(rows, now);
  }

  class AuctionScheduler {
    const products: ProductRepository
    const users: UserRepository
    const redis: RedisStore

    constructor (products: ProductRepository, users: UserRepository, redis: RedisStore)
      ensures this.products == products && this.users == users && this.redis == redis
    {
      this.products := products;
      this.users := users;
      this.redis := redis;
    }

    /** closeAuctions: every selected product is closed with its settlement
        read from the store as it was at the start, and loses its three keys;
        every other product and every other key is left alone, and afterwards
        nothing is left to select. */
    method CloseAuctions(now: int) returns (ghost closed: seq<Product>)
      requires products.Valid() && users.Valid() && BidsWellFormed(redis.values)
      modifies products.rows`winner, products.rows`winningPrice, products.rows`status, redis
      ensures closed == old(Selected(products.rows, now))
      ensures var ids := old(SelectedIds(products.rows, products.ids, now));
        forall j :: 0 <= j < |closed| ==> ClosedWith(closed[j], SettlementIn(old(redis.values), ids[j], users.byEmail))
      ensures forall i :: 0 <= i < |products.rows| && products.rows[i] !in closed ==> Untouched(products.rows[i])
      ensures var ids := old(SelectedIds(products.rows, products.ids, now));
        redis.values == Without(old(redis.values), ids) && redis.sets == Without(old(redis.sets), ids) &&
        redis.ttlMs == Without(old(redis.ttlMs), ids)
      ensures BidsWellFormed(redis.values)
      ensures Selected(products.rows, now) == []
    {
      var toClose := Selected(products.rows, now);
      closed := toClose;
      LeftOutDoesNotQualify(products.rows, now);
      ghost var ids := SelectedIds(products.rows, products.ids, now);
      SelectedHasIds(products.rows, products.ids, now);
      CloseAll(products.rows, toClose, ids);
      assert ids[..|ids|] == ids;
      SoldOut(toClose, ids, old(redis.values), users.byEmail);
      NothingLeft(products.rows, toClose, now);
    }

    /** The loop of closeAuctions over the selected products, in order; `ids`
        are their ids, which the loop reads one by one. */
    method CloseAll(ghost rows: seq<Product>, toClose: seq<Product>, ghost ids: seq<int>)
      requires users.Valid() && BidsWellFormed(redis.values) && HasIds(toClose, ids)
      modifies toClose`winner, toClose`winningPrice, toClose`status, redis
      ensures Progress(redis, toClose, ids, |toClose|, old(redis.values), old(redis.sets), old(redis.ttlMs), users.byEmail)
      ensures forall i :: 0 <= i < |rows| && rows[i] !in toClose ==> Untouched(rows[i])
    {
      ghost var accounts := users.byEmail;
      ghost var values, sets, ttlMs := redis.values, redis.sets, redis.ttlMs;
      WithoutNone(values);
      WithoutNone(sets);
      WithoutNone(ttlMs);
      assert ids[..0] == [];
      var i := 0;
      while i < |toClose|
        invariant 0 <= i <= |toClose|
        invariant Progress(redis, toClose, ids, i, values, sets, ttlMs, accounts)
      {
        CloseAt(toClose, ids, i, accounts, values, sets, ttlMs);
        i := i + 1;
      }
    }

    /** The loop body, with the loop's invariant before and after; `values`,
        `sets` and `ttlMs` are the store as the loop found it. */
    method CloseAt(toClose: seq<Product>, ghost ids: seq<int>, i: nat, ghost accounts: map<string, User>,
                   ghost values: map<Key, string>, ghost sets: map<Key, set<string>>, ghost ttlMs: map<Key, nat>)
      requires i < |toClose| && HasIds(toClose, ids) && users.Valid() && users.byEmail == accounts
      requires Progress(redis, toClose, ids, i, values, sets, ttlMs, accounts)
      modifies toClose`winner, toClose`winningPrice, toClose`status, redis
      ensures Progress(redis, toClose, ids, i + 1, values, sets, ttlMs, accounts)
    {
      var product := toClose[i];
      var id := product.id.value;
      HasIdsDistinct(toClose, ids, i);
      assert id !in ids[..i];
      SettlementUnaffected(values, ids[..i], id, accounts);
      CloseOne(product, id);
      assert ids[..i + 1] == ids[..i] + [id];
      WithoutOneMore(values, ids[..i], id);
      WithoutOneMore(sets, ids[..i], id);
      WithoutOneMore(ttlMs, ids[..i], id);
    }

    /** One iteration of the loop: settle one product from the store, then
        delete its three keys. */
    method CloseOne(product: Product, id: int)
      requires users.Valid() && product.id == Some(id) && BidsWellFormed(redis.values)
      modifies product`winner, product`winningPrice, product`status, redis
      ensures ClosedWith(product, SettlementIn(old(redis.values), id, users.byEmail))
      ensures redis.values == old(redis.values) - AuctionKeys(id)
      ensures redis.sets == old(redis.sets) - AuctionKeys(id)
      ensures redis.ttlMs == old(redis.ttlMs) - AuctionKeys(id)
      ensures BidsWellFormed(redis.values)
    {
      var highestBidderEmail := redis.Get(Auction(id, HighestBidder));
      var highestBidStr := redis.Get(Auction(id, HighestBid));
      if highestBidderEmail.Some? && highestBidStr.Some? {
        var winner := users.FindByEmail(highestBidderEmail.value);
        if winner.Some? {
          var winningPrice := ParseLong(highestBidStr.value).value;
          product.CloseAuction(winner, Some(winningPrice));
        } else {
          product.CloseAuction(None, None);
        }
      } else {
        product.CloseAuction(None, None);
      }
      redis.Delete(Auction(id, HighestBid));
      redis.Delete(Auction(id, HighestBidder));
      redis.Delete(Auction(id, BiddersSet));
      DeleteThree(old(redis.values), id);
      DeleteThree(old(redis.sets), id);
      DeleteThree(old(redis.ttlMs), id);
    }
  }
}
