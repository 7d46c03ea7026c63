/**
 Pages of a result: the arithmetic of LIMIT and OFFSET, and the metadata that lets a
 reader go from page to page.
 */
module Pagination {
  import opened NativeTypes

  datatype Page<+R> = Page(
    rows: seq<R>, page: int, pageSize: int, totalRows: nat, totalPages: int, hasNextPage: bool, hasPrevPage: bool)

  /** The rows a database returns for LIMIT and OFFSET. */
  function Limited<R>(rows: seq<R>, limit: nat, offset: nat): seq<R> {
    if offset >= |rows| then []
    else if offset + limit >= |rows| then rows[offset..]
    else rows[offset..offset + limit]
  }

  /** Division rounded up. */
  function CeilDiv(n: nat, d: int): int
    requires d > 0
  {
    (n + d - 1) / d
  }

  /** How many rows come before a page. */
  function Offset(page: int, pageSize: int): nat
    requires page >= 1 && pageSize >= 1
  {
    ProductIsNat(page - 1, pageSize);
    (page - 1) * pageSize
  }

  /** Page `page` of a list; both numbers count as 1 when they are smaller. */
  function Paginate<R>(rows: seq<R>, page: int, pageSize: int): Page<R> {
    var p, size := Max(1, page), Max(1, pageSize);
    var totalPages := Max(1, CeilDiv(|rows|, size));
    Page(Limited(rows, size, Offset(p, size)), p, size, |rows|, totalPages, p < totalPages, p > 1)
  }

  lemma ProductIsNat(a: int, b: int)
    requires a >= 0 && b >= 0
    ensures a * b >= 0
  {
  }

  /** A page has a next one exactly when the pages up to it do not hold every row. */
  lemma NextPageHoldsRows<R>(rows: seq<R>, page: int, pageSize: int)
    ensures var r := Paginate(rows, page, pageSize);
      r.hasNextPage <==> r.page * r.pageSize < |rows|
  {
    var p, d, n := Max(1, page), Max(1, pageSize), |rows|;
    CeilDivSplits(n, d, p);
  }

  lemma CeilDivSplits(n: nat, d: int, p: int)
    requires d > 0 && p >= 1
    ensures p < Max(1, CeilDiv(n, d)) <==> p * d < n
  {
    var q := (n + d - 1) / d;
    var r := (n + d - 1) % d;
    assert n + d - 1 == q * d + r;
    if p < q {
      TimesGrows(p, q - 1, d);
      assert (q - 1) * d == q * d - d;
    } else {
      TimesGrows(q, p, d);
    }
  }

  lemma TimesGrows(a: int, b: int, d: int)
    requires a <= b && d > 0
    ensures a * d <= b * d
  {
    assert b * d == a * d + (b - a) * d;
  }

  /**
   A page holds the rows of its own place in the list, as many as fit; it has one before it when
   it is not the first, and the pages are as many as it takes, and one when there are no rows.
   */
  lemma PageHoldsItsRows<R>(rows: seq<R>, page: int, pageSize: int)
    ensures var r := Paginate(rows, page, pageSize);
      && r.page == Max(1, page) && r.pageSize == Max(1, pageSize) && r.totalRows == |rows|
      && (r.hasPrevPage <==> page > 1)
      && (var start := (r.page - 1) * r.pageSize;
          r.rows == if 0 <= start < |rows| then rows[start..Min(start + r.pageSize, |rows|)] else [])
      && r.totalPages >= 1 && |rows| <= r.totalPages * r.pageSize
      && (r.totalPages > 1 ==> (r.totalPages - 1) * r.pageSize < |rows|)
  {
    var size, n := Max(1, pageSize), |rows|;
    var total := Paginate(rows, page, pageSize).totalPages;
    CeilDivSplits(n, size, total);
    if total > 1 { CeilDivSplits(n, size, total - 1); }
    ProductIsNat(Max(1, page) - 1, size);
    hide CeilDiv;
  }

  /** The pages met when following `hasNextPage` from some page on. */
  function Follow<R>(rows: seq<R>, page: int, pageSize: int): (pages: seq<Page<R>>)
    requires page >= 1
    decreases Max(0, Paginate(rows, 1, pageSize).totalPages - page)
  {
    var r := Paginate(rows, page, pageSize);
    if r.hasNextPage then [r] + Follow(rows, page + 1, pageSize) else [r]
  }

  function Concatenate<R>(pages: seq<Page<R>>): seq<R> {
    if pages == [] then [] else pages[0].rows + Concatenate(pages[1..])
  }

  lemma {:induction false} FollowingCovers<R>(rows: seq<R>, page: int, pageSize: int)
    requires page >= 1 && pageSize >= 1
    requires page <= Paginate(rows, 1, pageSize).totalPages
    ensures var pages, total := Follow(rows, page, pageSize), Paginate(rows, 1, pageSize).totalPages;
      && |pages| == total - page + 1
      && Concatenate(pages) == Limited(rows, |rows|, Offset(page, pageSize))
      && (forall k :: 0 <= k < |pages| - 1 ==> |pages[k].rows| == pageSize)
    decreases Paginate(rows, 1, pageSize).totalPages - page
  {
    var offset, next := Offset(page, pageSize), Offset(page + 1, pageSize);
    var r := Paginate(rows, page, pageSize);
    OffsetsAdvance(page, pageSize);
    NextPageHoldsRows(rows, page, pageSize);
    LimitedInTurn(rows, pageSize, offset);
    hide Offset, Limited, CeilDiv;
    if r.hasNextPage {
      FollowingCovers(rows, page + 1, pageSize);
      FollowsThen(rows, page, pageSize);
    } else {
      assert Concatenate([r]) == r.rows + Concatenate([r][1..]);
    }
  }

  lemma FollowsThen<R>(rows: seq<R>, page: int, pageSize: int)
    requires page >= 1 && Paginate(rows, page, pageSize).hasNextPage
    ensures var rest := Follow(rows, page + 1, pageSize);
      var pages := Follow(rows, page, pageSize);
      pages == [Paginate(rows, page, pageSize)] + rest
      && Concatenate(pages) == Paginate(rows, page, pageSize).rows + Concatenate(rest)
  {
    hide Paginate;
    var r, rest := Paginate(rows, page, pageSize), Follow(rows, page + 1, pageSize);
    assert ([r] + rest)[1..] == rest;
  }

  /** A page and what comes after it, or a page with nothing after it. */
  lemma LimitedInTurn<R>(rows: seq<R>, limit: nat, offset: nat)
    ensures var next := offset + limit;
      && Limited(rows, |rows|, offset) ==
           Limited(rows, limit, offset) + (if next < |rows| then Limited(rows, |rows|, next) else [])
      && (next < |rows| ==> |Limited(rows, limit, offset)| == limit)
  {
    if offset + limit < |rows| {
      assert rows[offset..] == rows[offset..offset + limit] + rows[offset + limit..];
    }
  }

  lemma OffsetsAdvance(page: int, pageSize: int)
    requires page >= 1 && pageSize >= 1
    ensures Offset(page + 1, pageSize) == Offset(page, pageSize) + pageSize == page * pageSize
  {
    assert page * pageSize == (page - 1) * pageSize + pageSize;
  }

  /**
   Starting at page 1 and going on while there is a next page takes exactly the total number
   of pages, every page but the last is full, and together they are the whole list in order.
   */
  lemma FollowingReadsEverything<R>(rows: seq<R>, pageSize: int)
    ensures var pages := Follow(rows, 1, pageSize);
      && |pages| == pages[0].totalPages
      && Concatenate(pages) == rows
      && (forall k :: 0 <= k < |pages| - 1 ==> |pages[k].rows| == pages[k].pageSize == Max(1, pageSize))
  {
    var size := Max(1, pageSize);
    SizeIsAtLeastOne(rows, 1, pageSize);
    FollowingCovers(rows, 1, size);
    assert Offset(1, size) == 0;
    AllHaveSize(rows, 1, size);
  }

  lemma {:induction false} SizeIsAtLeastOne<R>(rows: seq<R>, page: int, pageSize: int)
    requires page >= 1
    ensures Follow(rows, page, pageSize) == Follow(rows, page, Max(1, pageSize))
    decreases Max(0, Paginate(rows, 1, pageSize).totalPages - page)
  {
    if Paginate(rows, page, pageSize).hasNextPage { SizeIsAtLeastOne(rows, page + 1, pageSize); }
  }

  lemma {:induction false} AllHaveSize<R>(rows: seq<R>, page: int, pageSize: int)
    requires page >= 1
    ensures forall r :: r in Follow(rows, page, pageSize) ==> r.pageSize == Max(1, pageSize)
    decreases Max(0, Paginate(rows, 1, pageSize).totalPages - page)
  {
    if Paginate(rows, page, pageSize).hasNextPage { AllHaveSize(rows, page + 1, pageSize); }
  }
}
