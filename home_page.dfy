/** The infinite product list of frontend/src/pages/HomePage.tsx: the query
    starts at page 0, asks for page `pages.length` next until a page says it
    is the last, and shows the pages' contents one after the other. Every
    page is requested with size 9 sorted by auctionEndTime ascending, and is
    cut from `ds`, the database's answer to that sort, which stays the same
    from fetch to fetch. */
module HomePage {
  import opened Base
  import opened ProductEntity
  import opened ProductView
  import opened Products

  const InitialPageParam: nat := 0

  /** fetchProducts: `size=9&sort=auctionEndTime,asc`. */
  const HomePageSize: nat := 9
  const HomeSort: Sort := Sort(AuctionEndTimeColumn, true)

  /** getNextPageParam: none after a last page, else the number of pages
      loaded so far. */
  function GetNextPageParam<T>(pages: seq<Page<T>>): (r: Option<nat>)
    requires |pages| > 0
    ensures r.None? <==> pages[|pages| - 1].last
    ensures r.Some? ==> r.value == |pages|
  {
    if pages[|pages| - 1].last then None else Some(|pages|)
  }

  /** `data.pages.flatMap(page => page.content)`. */
  function Contents<T>(pages: seq<Page<T>>): (c: seq<seq<T>>)
    ensures |c| == |pages| && forall i :: 0 <= i < |pages| ==> c[i] == pages[i].content
  {
    if |pages| == 0 then [] else [pages[0].content] + Contents(pages[1..])
  }

  function Shown<T>(pages: seq<Page<T>>): seq<T>
  {
    Flatten(Contents(pages))
  }

  /** The pages 0 to n - 1 of the list view of `ds`. */
  predicate LoadedInOrder(pages: seq<Page<ProductResponse>>, ds: seq<ProductData>, size: nat)
    requires size > 0
  {
    forall i :: 0 <= i < |pages| ==> pages[i] == ListPage(ds, i, size)
  }

  /** Pages loaded from 0 upwards, all cut from the one sorted answer `ds`,
      show the list view of a prefix of `ds`: every product once, in the
      sort's order, none skipped. Once the last page is loaded, all of `ds`
      is shown. */
  lemma ShownIsPrefix(pages: seq<Page<ProductResponse>>, ds: seq<ProductData>, size: nat)
    requires size > 0 && LoadedInOrder(pages, ds, size)
    ensures Shown(pages) == ListViews(ds[..if |pages| * size < |ds| then |pages| * size else |ds|])
    ensures |pages| > 0 && GetNextPageParam(pages).None? ==> Shown(pages) == ListViews(ds)
  {
    var contents := Contents(pages);
    forall i | 0 <= i < |pages|
      ensures contents[i] == ListViews(PageOf(ds, i, size).content)
    {
    }
    PagesFlatten(ds, size, |pages|, contents);
    PagesArePrefix(ds, size, |pages|);
    if |pages| > 0 && GetNextPageParam(pages).None? {
      ReadToLastPage(ds, size, |pages|);
    }
  }

  /** The home page's infinite query over `ds`, the products as the
      database sorts them by auctionEndTime ascending. */
  class ProductFeed {
    const ds: seq<ProductData>
    var pages: seq<Page<ProductResponse>>

    ghost predicate Valid()
      reads this
    {
      SortedBy(ds, HomeSort) && LoadedInOrder(pages, ds, HomePageSize)
    }

    /** hasNextPage: no page yet, or the last page is not marked last. */
    function HasNextPage(): (r: bool)
      requires Valid()
      reads this
      ensures |pages| > 0 ==> (r <==> GetNextPageParam(pages).Some?)
    {
      |pages| == 0 || !pages[|pages| - 1].last
    }

    /** The first fetch, with the initial page param. */
    constructor (ds: seq<ProductData>)
      requires SortedBy(ds, HomeSort)
      ensures Valid() && this.ds == ds
      ensures pages == [ListPage(ds, InitialPageParam, HomePageSize)]
    {
      this.ds := ds;
      pages := [ListPage(ds, InitialPageParam, HomePageSize)];
    }

    /** fetchNextPage: the page getNextPageParam names, when there is one. */
    method FetchNextPage()
      requires Valid() && |pages| > 0
      modifies this`pages
      ensures Valid()
      ensures old(GetNextPageParam(pages)).Some? ==> pages == old(pages) + [ListPage(ds, old(|pages|), HomePageSize)]
      ensures old(GetNextPageParam(pages)).None? ==> pages == old(pages)
    {
      var next := GetNextPageParam(pages);
      if next.Some? {
        pages := pages + [ListPage(ds, next.value, HomePageSize)];
      }
    }

    /** The observer on the last shown product: the next page is fetched
        only when it comes into view and there is a next page. */
    method OnLastProductVisible(isIntersecting: bool)
      requires Valid() && |pages| > 0
      modifies this`pages
      ensures Valid()
      ensures isIntersecting && old(HasNextPage()) ==> pages == old(pages) + [ListPage(ds, old(|pages|), HomePageSize)]
      ensures !(isIntersecting && old(HasNextPage())) ==> pages == old(pages)
    {
      if isIntersecting && HasNextPage() {
        FetchNextPage();
      }
    }
  }
}
