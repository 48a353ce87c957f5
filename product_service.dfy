/** Product creation and the product queries (domain/product/service/ProductService.java).
    An uploaded file is represented by the URL the file storage returns for
    it; the storage itself is not part of this model. */
module Products {
  import opened Base
  import opened Decimal
  import opened AuctionConstants
  import opened RedisKeys
  import opened Redis
  import opened Users
  import opened ProductEntity
  import opened AuctionEngine
  import opened ProductView

  /** The request fields createProduct reads. */
  datatype ProductCreateRequest = ProductCreateRequest(
    title: string,
    description: string,
    startingPrice: int,
    auctionStartTime: int,
    auctionEndTime: int,
    category: Option<Category>)

  /** The live auction state of a product as getAuctionStateFromRedis reads it:
      the stored highest bid parsed (absent when no bid is stored), the stored
      bidder, and the size of the bidder set (0 when there is none). A stored
      bid that is not a numeral makes Long.parseLong throw. */
  function AuctionStateIn(values: map<Key, string>, sets: map<Key, set<string>>, productId: int): (r: Result<AuctionState>)
    ensures Auction(productId, HighestBid) in values && ParseLong(values[Auction(productId, HighestBid)]).None? <==>
              r == Throw(NumberFormat)
    ensures r.Ok? ==> (r.value.highestBid ==
              if Auction(productId, HighestBid) in values then ParseLong(values[Auction(productId, HighestBid)]) else None)
    ensures r.Ok? ==> (r.value.highestBidderEmail ==
              if Auction(productId, HighestBidder) in values then Some(values[Auction(productId, HighestBidder)]) else None)
    ensures r.Ok? ==> r.value.bidderCount == |Members(sets, Auction(productId, BiddersSet))|
  {
    var highestBidStr := if Auction(productId, HighestBid) in values then Some(values[Auction(productId, HighestBid)]) else None;
    var highestBidderEmail := if Auction(productId, HighestBidder) in values then Some(values[Auction(productId, HighestBidder)]) else None;
    var bidderCount := |Members(sets, Auction(productId, BiddersSet))|;
    if highestBidStr.Some? && ParseLong(highestBidStr.value).None? then Throw(NumberFormat)
    else Ok(AuctionState(if highestBidStr.Some? then ParseLong(highestBidStr.value) else None, highestBidderEmail, bidderCount))
  }

  /** Once a product's three keys are gone it has no live state: no bid, no
      bidder, no bidders. */
  lemma NoStateAfterCleanup(values: map<Key, string>, sets: map<Key, set<string>>, productId: int)
    ensures AuctionStateIn(values - AuctionKeys(productId), sets - AuctionKeys(productId), productId)
         == Ok(AuctionState(None, None, 0))
  {
  }

  /** After an accepted bid the live state reads back the bid, the bidder and
      the bidder set including the bidder. */
  lemma StateAfterBid(values: map<Key, string>, sets: map<Key, set<string>>, productId: int, bidAmount: int, bidderName: string)
    ensures AuctionStateIn(ValuesAfterBid(values, productId, bidAmount, bidderName), SetsAfterBid(sets, productId, bidderName), productId)
         == Ok(AuctionState(Some(bidAmount), Some(bidderName), |Members(sets, Auction(productId, BiddersSet)) + {bidderName}|))
  {
    StoredBidAfter(values, productId, bidAmount, bidderName);
  }

  /** After an accepted bid on a product still on sale, the detail view shows
      exactly what the bid's broadcast carried: the bid, the bidder and the
      bidder count. */
  lemma DetailMatchesBroadcast(d: ProductData, values: map<Key, string>, sets: map<Key, set<string>>,
                               productId: int, bidAmount: int, bidderName: string)
    requires d.status == SELLING
    ensures var values', sets' := ValuesAfterBid(values, productId, bidAmount, bidderName), SetsAfterBid(sets, productId, bidderName);
      var view := Of(d, AuctionStateIn(values', sets', productId).value);
      var status := StatusFor(values', sets', productId).value;
      view.currentPrice == status.currentHighestBid && view.highestBidderName == Some(status.highestBidderName) &&
      view.bidderCount == status.bidderCount
  {
    StateAfterBid(values, sets, productId, bidAmount, bidderName);
    StatusAfterBid(values, sets, productId, bidAmount, bidderName);
  }

  /** A product without live state is shown by the detail view at its starting
      price with NoBidder and no bidders, while a broadcast for it would say 0. */
  lemma NoStateViewAndBroadcast(d: ProductData, values: map<Key, string>, sets: map<Key, set<string>>, productId: int)
    requires d.status == SELLING
    ensures var values', sets' := values - AuctionKeys(productId), sets - AuctionKeys(productId);
      var view := Of(d, AuctionStateIn(values', sets', productId).value);
      view.currentPrice == d.startingPrice && view.highestBidderName == Some(NoBidder) && view.bidderCount == 0 &&
      StatusFor(values', sets', productId) == Ok(AuctionStatusResponse(0, NoBidder, 0))
  {
    NoStateAfterCleanup(values, sets, productId);
  }

  /** One page of a listing, as Spring Data's Page reports it. */
  datatype Page<T> = Page(content: seq<T>, number: nat, last: bool)

  /** The rows of page `number` of size `size`, in the order of `rows`, and whether
      no row lies beyond it. */
  function PageOf<T>(rows: seq<T>, number: nat, size: nat): (p: Page<T>)
    requires size > 0
    ensures |p.content| <= size && p.number == number
    ensures p.last <==> (number + 1) * size >= |rows|
    ensures forall i :: 0 <= i < |p.content| ==> number * size + i < |rows| && p.content[i] == rows[number * size + i]
    ensures !p.last ==> |p.content| == size
  {
    var from := if number * size < |rows| then number * size else |rows|;
    var to := if (number + 1) * size < |rows| then (number + 1) * size else |rows|;
    Page(rows[from..to], number, (number + 1) * size >= |rows|)
  }

  /** The contents of pages 0 to n - 1, one after the other. */
  function PagesUpTo<T>(rows: seq<T>, size: nat, n: nat): seq<T>
    requires size > 0
  {
    if n == 0 then [] else PagesUpTo(rows, size, n - 1) + PageOf(rows, n - 1, size).content
  }

  /** Reading pages 0, 1, 2, ... in turn reads the table prefix by prefix,
      without a gap or a repeat. */
  lemma {:induction false} PagesArePrefix<T>(rows: seq<T>, size: nat, n: nat)
    requires size > 0
    ensures PagesUpTo(rows, size, n) == rows[..if n * size < |rows| then n * size else |rows|]
  {
    if n > 0 {
      PagesArePrefix(rows, size, n - 1);
      var a := if (n - 1) * size < |rows| then (n - 1) * size else |rows|;
      var b := if n * size < |rows| then n * size else |rows|;
      assert (n - 1) * size + size == n * size;
      assert rows[..a] + rows[a..b] == rows[..b];
    }
  }

  /** Reading pages until the one marked last reads the whole table. */
  lemma ReadToLastPage<T>(rows: seq<T>, size: nat, n: nat)
    requires size > 0 && n > 0 && PageOf(rows, n - 1, size).last
    ensures PagesUpTo(rows, size, n) == rows
  {
    PagesArePrefix(rows, size, n);
    assert (n - 1) * size + size == n * size;
  }

  /** The values of the listed products, in order. */
  function DataOf(ps: seq<Product>): (ds: seq<ProductData>)
    reads ps
    ensures |ds| == |ps| && forall i :: 0 <= i < |ps| ==> ds[i] == ps[i].Data()
  {
    if |ps| == 0 then [] else [ps[0].Data()] + DataOf(ps[1..])
  }

  /** Page.map(ProductResponse::forList): each product through the list view, in order. */
  function ListViews(ds: seq<ProductData>): (rs: seq<ProductResponse>)
    ensures |rs| == |ds| && forall i :: 0 <= i < |ds| ==> rs[i] == ForList(ds[i])
  {
    if |ds| == 0 then [] else [ForList(ds[0])] + ListViews(ds[1..])
  }

  /** The list view of a concatenation is the concatenation of the list views. */
  lemma {:induction false} ListViewsAppend(a: seq<ProductData>, b: seq<ProductData>)
    ensures ListViews(a + b) == ListViews(a) + ListViews(b)
  {
    if |a| > 0 {
      assert (a + b)[1..] == a[1..] + b;
      ListViewsAppend(a[1..], b);
    }
  }

  /** Page.map(ProductResponse::forList) on page `number` of `ds`. */
  function ListPage(ds: seq<ProductData>, number: nat, size: nat): (p: Page<ProductResponse>)
    requires size > 0
    ensures |p.content| <= size && p.number == number
    ensures p.last <==> (number + 1) * size >= |ds|
    ensures forall i :: 0 <= i < |p.content| ==> number * size + i < |ds| && p.content[i] == ForList(ds[number * size + i])
  {
    var page := PageOf(ds, number, size);
    Page(ListViews(page.content), page.number, page.last)
  }

  /** The columns the listing is sorted by: `id` (the endpoint's default)
      and `auctionEndTime` (what the home page asks for). */
  datatype SortProperty = IdColumn | AuctionEndTimeColumn

  /** A Pageable's sort: one column, ascending or descending. */
  datatype Sort = Sort(property: SortProperty, ascending: bool)

  /** A Pageable: page number, page size and sort. */
  datatype Pageable = Pageable(number: nat, size: nat, sort: Sort)

  /** @PageableDefault(size = 10, sort = "id") on the listing endpoint. */
  const DefaultPageSize: nat := 10
  const DefaultSort: Sort := Sort(IdColumn, true)

  /** The value a product is sorted by; a stored product always has an id. */
  function SortValue(d: ProductData, property: SortProperty): int
  {
    match property
    case IdColumn => d.id.GetOr(0)
    case AuctionEndTimeColumn => d.auctionEndTime
  }

  /** `x` may come before `y` under `sort`. */
  predicate InOrder(x: ProductData, y: ProductData, sort: Sort)
  {
    if sort.ascending then SortValue(x, sort.property) <= SortValue(y, sort.property)
    else SortValue(x, sort.property) >= SortValue(y, sort.property)
  }

  /** `sorted` is an answer to ORDER BY `sort` on `table`: the same rows,
      every pair in order. Rows with equal sort values may come either way. */
  predicate SortedTable(sorted: seq<ProductData>, table: seq<ProductData>, sort: Sort)
  {
    multiset(sorted) == multiset(table) && SortedBy(sorted, sort)
  }

  /** Every pair of `s` is in order under `sort`. */
  predicate SortedBy(s: seq<ProductData>, sort: Sort)
  {
    forall i, j :: 0 <= i < j < |s| ==> InOrder(s[i], s[j], sort)
  }

  /** A tail of a sorted sequence is sorted. */
  lemma SortedTail(s: seq<ProductData>, sort: Sort)
    requires |s| > 0 && SortedBy(s, sort)
    ensures SortedBy(s[1..], sort)
  {
    forall i, j | 0 <= i < j < |s| - 1
      ensures InOrder(s[1..][i], s[1..][j], sort)
    {
      assert s[1..][i] == s[i + 1] && s[1..][j] == s[j + 1];
    }
  }

  /** No two different rows of `table` share a value of `property`. */
  predicate KeyIdentifies(table: seq<ProductData>, property: SortProperty)
  {
    forall x, y :: x in table && y in table && SortValue(x, property) == SortValue(y, property) ==> x == y
  }

  /** When the sort column tells rows apart, ORDER BY has one answer, so
      every fetch sees the rows in the same order. */
  lemma {:induction false} SortedUnique(a: seq<ProductData>, b: seq<ProductData>, table: seq<ProductData>, sort: Sort)
    requires SortedTable(a, table, sort) && SortedTable(b, table, sort)
    requires KeyIdentifies(table, sort.property)
    ensures a == b
  {
    assert |a| == |multiset(a)| == |multiset(b)| == |b|;
    if |a| > 0 {
      assert a[0] in multiset(b) && b[0] in multiset(a);
      assert a[0] in b && b[0] in a;
      var j :| 0 <= j < |b| && b[j] == a[0];
      var i :| 0 <= i < |a| && a[i] == b[0];
      assert SortValue(a[0], sort.property) == SortValue(b[0], sort.property) by {
        assert i > 0 ==> InOrder(a[0], a[i], sort);
        assert j > 0 ==> InOrder(b[0], b[j], sort);
      }
      assert a[0] in table && b[0] in table by {
        assert a[0] in multiset(table) && b[0] in multiset(table);
      }
      assert a[0] == b[0];
      TailsPermutation(a, b);
      var rest := a[1..];
      SortedTail(a, sort);
      SortedTail(b, sort);
      forall x, y | x in rest && y in rest && SortValue(x, sort.property) == SortValue(y, sort.property)
        ensures x == y
      {
        assert x in a && y in a;
        assert x in multiset(table) && y in multiset(table);
      }
      assert SortedTable(rest, rest, sort);
      assert SortedTable(b[1..], rest, sort);
      assert KeyIdentifies(rest, sort.property);
      SortedUnique(rest, b[1..], rest, sort);
      SameHeadSameTail(a, b);
    }
  }

  /** A permutation has the length of what it permutes. */
  lemma SameLength<T>(a: seq<T>, b: seq<T>)
    requires multiset(a) == multiset(b)
    ensures |a| == |b|
  {
    assert |a| == |multiset(a)| && |b| == |multiset(b)|;
  }

  /** Sequences agreeing on their first element and their tail are equal. */
  lemma SameHeadSameTail<T>(a: seq<T>, b: seq<T>)
    requires |a| > 0 && |b| > 0 && a[0] == b[0] && a[1..] == b[1..]
    ensures a == b
  {
    assert a == [a[0]] + a[1..] && b == [b[0]] + b[1..];
  }

  /** Permutations with the same first element have permuted tails. */
  lemma TailsPermutation<T>(a: seq<T>, b: seq<T>)
    requires |a| > 0 && |b| > 0 && a[0] == b[0] && multiset(a) == multiset(b)
    ensures multiset(a[1..]) == multiset(b[1..])
  {
    assert a == [a[0]] + a[1..] && b == [b[0]] + b[1..];
    assert multiset(a) == multiset{a[0]} + multiset(a[1..]);
    assert multiset(b) == multiset{a[0]} + multiset(b[1..]);
    assert multiset(a[1..]) == multiset(a) - multiset{a[0]};
  }

  /** With a tied sort value, ORDER BY has two answers, and reading page 0
      of one and page 1 of the other (pages of one row) reads `x` twice and
      never `y`, with page 1 marked last. */
  lemma TiedRowsCanRepeat(x: ProductData, y: ProductData)
    requires x != y && x.auctionEndTime == y.auctionEndTime
    ensures SortedTable([x, y], [x, y], Sort(AuctionEndTimeColumn, true))
    ensures SortedTable([y, x], [x, y], Sort(AuctionEndTimeColumn, true))
    ensures PageOf([y, x], 1, 1).last
    ensures PageOf([x, y], 0, 1).content + PageOf([y, x], 1, 1).content == [x, x]
    ensures y !in PageOf([x, y], 0, 1).content + PageOf([y, x], 1, 1).content
  {
    assert multiset([y, x]) == multiset([x, y]);
  }




  /** What createProduct stores: the given id, the request's columns, the
      seller, status SELLING, no winner or winning price, and one image per
      URL, in upload order, each linked to the product. */
  predicate IsNewProduct(p: Product, request: ProductCreateRequest, seller: User, id: Option<int>, urls: seq<string>)
    reads p
  {
    p.Data() == ProductData(id, request.title, request.description, request.startingPrice, None,
                            request.auctionStartTime, request.auctionEndTime, SELLING, seller, None,
                            request.category, p.images) &&
    |p.images| == |urls| && forall i :: 0 <= i < |urls| ==> p.images[i] == ProductImage(urls[i], p)
  }

  class ProductService {
    const products: ProductRepository
    const users: UserRepository
    const redis: RedisStore

    constructor (products: ProductRepository, users: UserRepository, redis: RedisStore)
      ensures this.products == products && this.users == users && this.redis == redis
    {
      this.products := products;
      this.users := users;
      this.redis := redis;
    }

    /** createProduct. An unknown seller throws and nothing is saved or
        deleted. Otherwise the new product carries the request's columns, the
        seller, status SELLING and one image per uploaded file in upload order
        (none for a null or empty list); it is saved under the next id, which
        is returned, and the three auction keys of that id are deleted. */
    method CreateProduct(request: ProductCreateRequest, imageUrls: Option<seq<string>>, sellerEmail: string)
      returns (r: Result<int>)
      requires products.Valid() && users.Valid()
      modifies products, redis
      ensures products.Valid()
      ensures sellerEmail !in users.byEmail ==>
                r == Throw(IllegalArgument) && products.rows == old(products.rows) &&
                products.nextId == old(products.nextId) &&
                redis.values == old(redis.values) && redis.sets == old(redis.sets) && redis.ttlMs == old(redis.ttlMs)
      ensures sellerEmail in users.byEmail ==>
                r == Ok(old(products.nextId)) && |products.rows| == |old(products.rows)| + 1 &&
                products.rows[..|old(products.rows)|] == old(products.rows) &&
                IsNewProduct(products.rows[|old(products.rows)|], request, users.byEmail[sellerEmail], Some(r.value), imageUrls.GetOr([])) &&
                redis.values == old(redis.values) - AuctionKeys(r.value) &&
                redis.sets == old(redis.sets) - AuctionKeys(r.value) &&
                redis.ttlMs == old(redis.ttlMs) - AuctionKeys(r.value)
    {
      var seller := users.FindByEmail(sellerEmail);
      if seller.None? {
        return Throw(IllegalArgument);
      }
      var product := BuildProduct(request, imageUrls, seller.value);
      var productId := SaveNew(product, request, seller.value, imageUrls.GetOr([]));
      CleanupAuctionRedisData(productId);
      return Ok(productId);
    }

    /** productRepository.save(product) on the product just built: it gets the next id and is appended. */
    method SaveNew(product: Product, ghost request: ProductCreateRequest, ghost seller: User, ghost urls: seq<string>)
      returns (productId: int)
      requires products.Valid() && IsNewProduct(product, request, seller, None, urls)
      modifies products, product`id
      ensures products.Valid() && productId == old(products.nextId)
      ensures |products.rows| == |old(products.rows)| + 1 && products.rows[..|old(products.rows)|] == old(products.rows)
      ensures products.rows[|old(products.rows)|] == product
      ensures IsNewProduct(product, request, seller, Some(productId), urls)
    {
      var saved := products.Save(product);
      productId := saved.id.value;
      assert products.rows[..|old(products.rows)|] == old(products.rows);
    }

    /** The product createProduct builds before saving it: the builder,
        then the image loop when the list is neither null nor empty. */
    method BuildProduct(request: ProductCreateRequest, imageUrls: Option<seq<string>>, seller: User)
      returns (product: Product)
      ensures fresh(product)
      ensures IsNewProduct(product, request, seller, None, imageUrls.GetOr([]))
    {
      product := new Product(request.title, request.description, request.startingPrice,
                             request.auctionStartTime, request.auctionEndTime, seller, request.category);
      if imageUrls.Some? && |imageUrls.value| > 0 {
        AddImages(product, imageUrls.value);
      }
    }

    /** The image loop of createProduct: one image per URL, in order, each
        linked to the product, appended to the product's images. */
    method AddImages(product: Product, urls: seq<string>)
      modifies product`images
      ensures |product.images| == |old(product.images)| + |urls|
      ensures product.images[..|old(product.images)|] == old(product.images)
      ensures forall j :: 0 <= j < |urls| ==> product.images[|old(product.images)| + j] == ProductImage(urls[j], product)
    {
      ghost var before := product.images;
      var i := 0;
      while i < |urls|
        invariant 0 <= i <= |urls|
        invariant |product.images| == |before| + i
        invariant product.images[..|before|] == before
        invariant forall j :: 0 <= j < i ==> product.images[|before| + j] == ProductImage(urls[j], product)
      {
        product.AddImage(ProductImage(urls[i], product));
        i := i + 1;
      }
    }

    /** cleanupAuctionRedisData: one delete of the product's three keys. */
    method CleanupAuctionRedisData(productId: int)
      modifies redis
      ensures redis.values == old(redis.values) - AuctionKeys(productId)
      ensures redis.sets == old(redis.sets) - AuctionKeys(productId)
      ensures redis.ttlMs == old(redis.ttlMs) - AuctionKeys(productId)
    {
      var keysToDelete := [Auction(productId, HighestBid), Auction(productId, HighestBidder), Auction(productId, BiddersSet)];
      assert (set k | k in keysToDelete) == AuctionKeys(productId);
      redis.DeleteAll(keysToDelete);
    }

    /** getAuctionStateFromRedis: the stored highest bid, parsed as a long, the
        highest bidder and the size of the bidder set; a stored bid that is not
        a numeral throws NumberFormatException. */
    function GetAuctionStateFromRedis(productId: int): (r: Result<AuctionState>)
      reads redis
      ensures var bid := redis.Get(Auction(productId, HighestBid));
              (r.Throw? <==> bid.Some? && ParseLong(bid.value).None?) &&
              (r.Throw? ==> r.error == NumberFormat) &&
              (r.Ok? ==> r.value == AuctionState(if bid.Some? then ParseLong(bid.value) else None,
                                                 redis.Get(Auction(productId, HighestBidder)),
                                                 redis.Size(Auction(productId, BiddersSet))))
    {
      AuctionStateIn(redis.values, redis.sets, productId)
    }

    /** getProduct: the detail view of the product with that id, which must
        exist; a malformed stored bid makes the state read throw. */
    function GetProduct(productId: int): (r: Result<ProductResponse>)
      reads products, products.rows, redis
      ensures products.FindById(productId).None? ==> r == Throw(IllegalArgument)
      ensures products.FindById(productId).Some? ==>
                match AuctionStateIn(redis.values, redis.sets, productId)
                case Throw(e) => r == Throw(e)
                case Ok(state) => r == Ok(Of(products.FindById(productId).value.Data(), state))
    {
      match products.FindById(productId)
      case None => Throw(IllegalArgument)
      case Some(product) =>
        match GetAuctionStateFromRedis(productId)
        case Throw(e) => Throw(e)
        case Ok(state) => Ok(Of(product.Data(), state))
    }

    /** getProducts: the page `pageable` names of the products in the order
        the database returns them for `pageable.sort` (`sorted`, an answer to
        findAllWithSeller's ORDER BY), each through the list view. */
    function GetProducts(pageable: Pageable, sorted: seq<ProductData>): (p: Page<ProductResponse>)
      reads products, products.rows
      requires pageable.size > 0 && SortedTable(sorted, DataOf(products.rows), pageable.sort)
      ensures |p.content| <= pageable.size && p.number == pageable.number
      ensures p.last <==> (pageable.number + 1) * pageable.size >= |products.rows|
      ensures forall i :: 0 <= i < |p.content| ==>
                pageable.number * pageable.size + i < |sorted| &&
                p.content[i] == ForList(sorted[pageable.number * pageable.size + i])
    {
      SameLength(sorted, DataOf(products.rows));
      ListPage(sorted, pageable.number, pageable.size)
    }

    /** Fetching pages 0, 1, 2, ... with one sort until the last one, all
        cut from the same answer `sorted`, lists every product once, in the
        sort's order, through the list view. */
    lemma ListingCoversTable(size: nat, sort: Sort, sorted: seq<ProductData>, contents: seq<seq<ProductResponse>>)
      requires size > 0 && SortedTable(sorted, DataOf(products.rows), sort)
      requires |contents| > 0 && GetProducts(Pageable(|contents| - 1, size, sort), sorted).last
      requires forall i :: 0 <= i < |contents| ==> contents[i] == GetProducts(Pageable(i, size, sort), sorted).content
      ensures Flatten(contents) == ListViews(sorted)
    {
      ListedPagesCoverRows(sorted, size, contents);
    }

    /** Stored products have distinct ids, so the listing sorted by id (the
        endpoint's default) has one order: every fetch cuts its page from
        the same sequence. */
    lemma IdSortHasOneOrder(a: seq<ProductData>, b: seq<ProductData>, ascending: bool)
      requires products.Valid()
      requires SortedTable(a, DataOf(products.rows), Sort(IdColumn, ascending))
      requires SortedTable(b, DataOf(products.rows), Sort(IdColumn, ascending))
      ensures a == b
    {
      var ds := DataOf(products.rows);
      forall x, y | x in ds && y in ds && SortValue(x, IdColumn) == SortValue(y, IdColumn)
        ensures x == y
      {
        var i :| 0 <= i < |ds| && ds[i] == x;
        var k :| 0 <= k < |ds| && ds[k] == y;
        assert products.ids[i] == products.ids[k];
      }
      SortedUnique(a, b, ds, Sort(IdColumn, ascending));
    }
  }

  /** Listing pages 0 to the last one, through the list view, lists every row once, in order. */
  lemma ListedPagesCoverRows(rows: seq<ProductData>, size: nat, contents: seq<seq<ProductResponse>>)
    requires size > 0 && |contents| > 0 && ListPage(rows, |contents| - 1, size).last
    requires forall i :: 0 <= i < |contents| ==> contents[i] == ListPage(rows, i, size).content
    ensures Flatten(contents) == ListViews(rows)
  {
    forall i | 0 <= i < |contents|
      ensures contents[i] == ListViews(PageOf(rows, i, size).content)
    {
    }
    PagesFlatten(rows, size, |contents|, contents);
    ReadToLastPage(rows, size, |contents|);
  }

  /** Flattening the listed pages is listing the pages read so far. */
  lemma {:induction false} PagesFlatten(rows: seq<ProductData>, size: nat, n: nat, contents: seq<seq<ProductResponse>>)
    requires size > 0 && |contents| == n
    requires forall i :: 0 <= i < n ==> contents[i] == ListViews(PageOf(rows, i, size).content)
    ensures Flatten(contents) == ListViews(PagesUpTo(rows, size, n))
  {
    if n > 0 {
      var init := contents[..n - 1];
      assert forall i :: 0 <= i < n - 1 ==> init[i] == contents[i];
      PagesFlatten(rows, size, n - 1, init);
      assert contents == init + [contents[n - 1]];
      FlattenAppend(init, contents[n - 1]);
      ListViewsAppend(PagesUpTo(rows, size, n - 1), PageOf(rows, n - 1, size).content);
    }
  }
}
