/** The two product views of domain/product/dto/ProductResponse.java: the
    detail view `of`, which combines the stored product with the live auction
    state read from the store, and the list view `forList`, which uses the
    stored product alone. */
module ProductView {
  import opened Base
  import opened Users
  import opened ProductEntity
  import opened AuctionEngine

  /** The live state of one auction as read from the store (AuctionStateDto). */
  datatype AuctionState = AuctionState(highestBid: Option<int>, highestBidderEmail: Option<string>, bidderCount: int)

  /** The response body for one product. The seller's and the winner's names
      are the User columns, which may be null. */
  datatype ProductResponse = ProductResponse(
    id: Option<int>,
    title: string,
    description: string,
    startingPrice: int,
    currentPrice: int,
    auctionStartTime: int,
    auctionEndTime: int,
    status: ProductStatus,
    sellerName: Option<string>,
    highestBidderName: Option<string>,
    bidderCount: int,
    category: Option<Category>,
    imageUrls: seq<string>,
    thumbnailUrl: Option<string>)

  /** The URLs of the images, in image order. */
  function ImageUrls(images: seq<ProductImage>): (urls: seq<string>)
    ensures |urls| == |images|
    ensures forall i :: 0 <= i < |images| ==> urls[i] == images[i].imageUrl
  {
    if |images| == 0 then [] else [images[0].imageUrl] + ImageUrls(images[1..])
  }

  /** The thumbnail: the first image's URL, null when there are no images. */
  function Thumbnail(images: seq<ProductImage>): (t: Option<string>)
    ensures t.Some? <==> |images| > 0
    ensures t.Some? ==> t.value == images[0].imageUrl
  {
    if |images| == 0 then None else Some(images[0].imageUrl)
  }

  /** The columns both views copy from the product as they are. */
  predicate CopiesColumns(r: ProductResponse, d: ProductData)
  {
    r.id == d.id && r.title == d.title && r.startingPrice == d.startingPrice &&
    r.auctionStartTime == d.auctionStartTime && r.auctionEndTime == d.auctionEndTime &&
    r.status == d.status && r.sellerName == d.seller.name && r.category == d.category
  }

  /** ProductResponse.of. The price is the winning price of a sold product
      that has one, else the live highest bid, else the starting price; the
      bidder is the winner of a sold product that has one, else the live
      highest bidder's e-mail, else NoBidder; the bidder count is the live
      one; all image URLs are listed and the first is the thumbnail. */
  function Of(d: ProductData, state: AuctionState): (r: ProductResponse)
    ensures CopiesColumns(r, d) && r.description == d.description
    ensures d.status == SOLD_OUT && d.winningPrice.Some? ==> r.currentPrice == d.winningPrice.value
    ensures !(d.status == SOLD_OUT && d.winningPrice.Some?) && state.highestBid.Some? ==>
              r.currentPrice == state.highestBid.value
    ensures !(d.status == SOLD_OUT && d.winningPrice.Some?) && state.highestBid.None? ==>
              r.currentPrice == d.startingPrice
    ensures d.status == SOLD_OUT && d.winner.Some? ==> r.highestBidderName == d.winner.value.name
    ensures !(d.status == SOLD_OUT && d.winner.Some?) && state.highestBidderEmail.Some? ==>
              r.highestBidderName == state.highestBidderEmail
    ensures !(d.status == SOLD_OUT && d.winner.Some?) && state.highestBidderEmail.None? ==>
              r.highestBidderName == Some(NoBidder)
    ensures r.bidderCount == state.bidderCount
    ensures |r.imageUrls| == |d.images| && forall i :: 0 <= i < |d.images| ==> r.imageUrls[i] == d.images[i].imageUrl
    ensures r.thumbnailUrl == (if |r.imageUrls| == 0 then None else Some(r.imageUrls[0]))
  {
    var finalPrice :=
      if d.status == SOLD_OUT && d.winningPrice.Some? then d.winningPrice.value
      else if state.highestBid.Some? then state.highestBid.value
      else d.startingPrice;
    var finalBidderName :=
      if d.status == SOLD_OUT && d.winner.Some? then d.winner.value.name
      else if state.highestBidderEmail.Some? then state.highestBidderEmail
      else Some(NoBidder);
    var imageUrls := ImageUrls(d.images);
    var thumbnailUrl := if |imageUrls| == 0 then None else Some(imageUrls[0]);
    ProductResponse(d.id, d.title, d.description, d.startingPrice, finalPrice, d.auctionStartTime,
                    d.auctionEndTime, d.status, d.seller.name, finalBidderName, state.bidderCount,
                    d.category, imageUrls, thumbnailUrl)
  }

  /** ProductResponse.forList. The price is the winning price when there is
      one and the starting price otherwise, whatever the status; the bidder
      is the winner or NoBidder; no description, no bidder count, no image
      list, only the thumbnail. */
  function ForList(d: ProductData): (r: ProductResponse)
    ensures CopiesColumns(r, d)
    ensures r.currentPrice == d.winningPrice.GetOr(d.startingPrice)
    ensures d.winner.Some? ==> r.highestBidderName == d.winner.value.name
    ensures d.winner.None? ==> r.highestBidderName == Some(NoBidder)
    ensures r.description == "" && r.bidderCount == 0 && r.imageUrls == []
    ensures r.thumbnailUrl == Thumbnail(d.images)
  {
    var currentPrice := if d.winningPrice.Some? then d.winningPrice.value else d.startingPrice;
    var bidderName := if d.winner.Some? then d.winner.value.name else Some(NoBidder);
    ProductResponse(d.id, d.title, "", d.startingPrice, currentPrice, d.auctionStartTime,
                    d.auctionEndTime, d.status, d.seller.name, bidderName, 0, d.category, [],
                    Thumbnail(d.images))
  }

  /** A product closed with a winner and a price shows that winner and price
      in both views, whatever the live state says, and both views show the
      same thumbnail. */
  lemma ClosedViewsAgree(d: ProductData, winner: User, price: int, state: AuctionState)
    ensures var c := Closed(d, Some(winner), Some(price));
      Of(c, state).currentPrice == price && ForList(c).currentPrice == price &&
      Of(c, state).highestBidderName == winner.name && ForList(c).highestBidderName == winner.name &&
      Of(c, state).thumbnailUrl == ForList(c).thumbnailUrl
  {
  }

  /** A product closed without a winner (no bid, or the bidder is gone) shows
      its starting price and NoBidder in the list, but the detail view falls
      back to whatever live state it is given. */
  lemma ClosedWithoutWinnerViews(d: ProductData, state: AuctionState)
    ensures var c := Closed(d, None, None);
      ForList(c).currentPrice == d.startingPrice && ForList(c).highestBidderName == Some(NoBidder) &&
      Of(c, state).currentPrice == state.highestBid.GetOr(d.startingPrice)
  {
  }

  /** While a product is on sale the list view ignores live bids: it shows
      the starting price even when the detail view shows a higher bid. */
  lemma ListIgnoresLiveBids(d: ProductData, state: AuctionState)
    requires d.status == SELLING && d.winningPrice.None? && state.highestBid.Some?
    ensures ForList(d).currentPrice == d.startingPrice
    ensures Of(d, state).currentPrice == state.highestBid.value
  {
  }

  /** The detail view's thumbnail is the list view's thumbnail. */
  lemma ThumbnailsAgree(d: ProductData, state: AuctionState)
    ensures Of(d, state).thumbnailUrl == ForList(d).thumbnailUrl
  {
  }
}
