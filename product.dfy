/** The Product entity (domain/product/entity/Product.java) and the
    ProductRepository queries the modelled services use. Times are seconds
    on one local clock; the Java LocalDateTime type is not modelled. */
module ProductEntity {
  import opened Base
  import opened Users

  datatype ProductStatus = SELLING | SOLD_OUT

  datatype Category =
    | DIGITAL_DEVICE | HOME_APPLIANCES | FURNITURE_INTERIOR | LIFE_KITCHEN | CLOTHING
    | BEAUTY | SPORTS_LEISURE | BOOKS_TICKETS_RECORDS | PET_SUPPLIES | ETC

  /** A stored image: its URL and the product it belongs to. */
  datatype ProductImage = ProductImage(imageUrl: string, product: Product)

  /** The value of every column of one product at one moment. */
  datatype ProductData = ProductData(
    id: Option<int>,
    title: string,
    description: string,
    startingPrice: int,
    winningPrice: Option<int>,
    auctionStartTime: int,
    auctionEndTime: int,
    status: ProductStatus,
    seller: User,
    winner: Option<User>,
    category: Option<Category>,
    images: seq<ProductImage>)

  /** What closeAuction makes of a product: the given winner and price, even
      when null, and status SOLD_OUT; every other column as before. */
  function Closed(d: ProductData, winner: Option<User>, winningPrice: Option<int>): (r: ProductData)
    ensures r.status == SOLD_OUT && r.winner == winner && r.winningPrice == winningPrice
    ensures r.(winner := d.winner, winningPrice := d.winningPrice, status := d.status) == d
  {
    d.(winner := winner, winningPrice := winningPrice, status := SOLD_OUT)
  }

  /** Closing twice with the same arguments is the same as closing once. */
  lemma CloseAuctionIdempotent(d: ProductData, winner: Option<User>, winningPrice: Option<int>)
    ensures Closed(Closed(d, winner, winningPrice), winner, winningPrice) == Closed(d, winner, winningPrice)
  {
  }

  class Product {
    var id: Option<int>
    var title: string
    var description: string
    var startingPrice: int
    var winningPrice: Option<int>
    var auctionStartTime: int
    var auctionEndTime: int
    var status: ProductStatus
    var seller: User
    var winner: Option<User>
    var category: Option<Category>
    var images: seq<ProductImage>

    function Data(): ProductData
      reads this
    {
      ProductData(id, title, description, startingPrice, winningPrice, auctionStartTime,
                  auctionEndTime, status, seller, winner, category, images)
    }

    /** The builder: the given columns, status SELLING, no id, no winner,
        no winning price and no images yet. */
    constructor (title: string, description: string, startingPrice: int, auctionStartTime: int,
                 auctionEndTime: int, seller: User, category: Option<Category>)
      ensures Data() == ProductData(None, title, description, startingPrice, None, auctionStartTime,
                                    auctionEndTime, SELLING, seller, None, category, [])
    {
      this.id := None;
      this.title := title;
      this.description := description;
      this.startingPrice := startingPrice;
      this.winningPrice := None;
      this.auctionStartTime := auctionStartTime;
      this.auctionEndTime := auctionEndTime;
      this.status := SELLING;
      this.seller := seller;
      this.winner := None;
      this.category := category;
      this.images := [];
    }

    method CloseAuction(winner: Option<User>, winningPrice: Option<int>)
      modifies this`winner, this`winningPrice, this`status
      ensures Data() == Closed(old(Data()), winner, winningPrice)
    {
      this.winner := winner;
      this.winningPrice := winningPrice;
      this.status := SOLD_OUT;
    }

    /** addImage: the image goes to the end of the product's image list. */
    method AddImage(image: ProductImage)
      modifies this`images
      ensures images == old(images) + [image]
    {
      images := images + [image];
    }
  }

  /** The first product in ps with the given id. */
  function Find(ps: seq<Product>, id: int): (r: Option<Product>)
    reads ps
    ensures r.Some? ==> r.value in ps && r.value.id == Some(id)
    ensures r.None? ==> forall i :: 0 <= i < |ps| ==> ps[i].id != Some(id)
  {
    if |ps| == 0 then None
    else if ps[0].id == Some(id) then Some(ps[0])
    else Find(ps[1..], id)
  }

  /** `ids` are the ids of the listed products, in order, and no id occurs twice. */
  ghost predicate HasIds(ps: seq<Product>, ids: seq<int>)
    reads ps`id
  {
    |ids| == |ps| && forall j :: 0 <= j < |ps| ==> ps[j].id == Some(ids[j]) && ids[j] !in ids[..j]
  }

  /** Products with distinct ids are distinct objects. */
  lemma HasIdsDistinct(ps: seq<Product>, ids: seq<int>, i: nat)
    requires HasIds(ps, ids) && i < |ps|
    ensures forall j :: 0 <= j < i ==> ps[j] != ps[i] && ids[j] != ids[i]
  {
    forall j | 0 <= j < i
      ensures ps[j] != ps[i] && ids[j] != ids[i]
    {
      assert ids[..i][j] == ids[j];
    }
  }

  /** The product table: the rows in insertion order, their ids and the next
      identity value. */
  class ProductRepository {
    var rows: seq<Product>
    var nextId: int
    ghost var ids: seq<int>

    /** Every stored product has an id below nextId, and ids are unique. */
    ghost predicate Valid()
      reads this, rows`id
    {
      nextId >= 1 && HasIds(rows, ids) && forall i :: 0 <= i < |ids| ==> ids[i] < nextId
    }

    constructor ()
      ensures rows == [] && nextId == 1 && Valid()
    {
      rows, nextId, ids := [], 1, [];
    }

    /** findById / findByIdWithSeller. */
    function FindById(id: int): (r: Option<Product>)
      reads this, rows
      ensures r.Some? ==> r.value in rows && r.value.id == Some(id)
      ensures r.None? ==> forall i :: 0 <= i < |rows| ==> rows[i].id != Some(id)
    {
      Find(rows, id)
    }

    /** save of a new entity: it receives the next identity value and is appended. */
    method Save(p: Product) returns (saved: Product)
      requires Valid() && p.id.None?
      modifies this, p`id
      ensures Valid()
      ensures saved == p && p.id == Some(old(nextId))
      ensures rows == old(rows) + [p] && ids == old(ids) + [old(nextId)] && nextId == old(nextId) + 1
    {
      p.id := Some(nextId);
      rows := rows + [p];
      ids := ids + [nextId];
      nextId := nextId + 1;
      saved := p;
    }
  }
}
