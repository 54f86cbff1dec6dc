/** Page-number state for list views (src/composables/usePagination.ts). */
module Pagination {
  import opened Lists

  /** A page count as JavaScript computes it: a number, or an infinity
      when the page size is zero. */
  datatype PageCount = Finite(n: int) | PosInf | NegInf

  /** `x <= count` */
  predicate AtMost(x: int, count: PageCount) {
    match count
    case Finite(n) => x <= n
    case PosInf => true
    case NegInf => false
  }

  /** `x < count` */
  predicate Below(x: int, count: PageCount) {
    match count
    case Finite(n) => x < n
    case PosInf => true
    case NegInf => false
  }

  /** `Math.ceil(total / pageSize) || 1`: a quotient of zero, and the `NaN`
      of `0 / 0`, read as one page; any other total over a zero size is an
      infinity of its sign. */
  function TotalPagesOf(total: int, pageSize: int): (r: PageCount)
    ensures pageSize != 0 ==> r.Finite?
    ensures pageSize > 0 && total >= 0 ==> r.n >= 1
    ensures pageSize > 0 && total > 0 ==> (r.n - 1) * pageSize < total <= r.n * pageSize
    ensures pageSize > 0 && -pageSize < total <= 0 ==> r.n == 1
    ensures pageSize < 0 && total >= 0 ==> r.n <= 1 && (r.n == 1 <==> total < -pageSize)
    ensures pageSize == 0 ==> r == if total > 0 then PosInf else if total < 0 then NegInf else Finite(1)
  {
    if pageSize == 0 then (if total > 0 then PosInf else if total < 0 then NegInf else Finite(1))
    else if pageSize > 0 then
      var pages := CeilDiv(total, pageSize);
      Finite(if pages == 0 then 1 else pages)
    else
      var pages := CeilDiv(-total, -pageSize);
      if total >= 0 then CeilOfNonPositive(-total, -pageSize); Finite(if pages == 0 then 1 else pages)
      else Finite(if pages == 0 then 1 else pages)
  }

  /** `Math.ceil(a / b)` of a non-positive `a` is not positive, and is zero
      exactly when `a > -b`. */
  lemma CeilOfNonPositive(a: int, b: int)
    requires b > 0 && a <= 0
    ensures CeilDiv(a, b) <= 0 && (CeilDiv(a, b) == 0 <==> a > -b)
  {
    var q := (-a) / b;
    assert CeilDiv(a, b) == -q;
    assert q >= 0;
    if -a < b {
      assert q == 0;
    } else {
      assert q >= 1;
    }
  }

  /** The 1-based positions of the first and last item shown. */
  datatype Range = Range(start: int, end: int)

  function PageRangeOf(currentPage: int, pageSize: int, total: int): Range {
    Range((currentPage - 1) * pageSize + 1, Min(currentPage * pageSize, total))
  }

  /** The range names exactly the items on the page: for a page that does
      not start past the end, page `p` of a list of `total` items is the
      slice from `start - 1` to `end`. */
  lemma PageRangeIsPage<T>(items: seq<T>, currentPage: int, pageSize: int)
    requires currentPage >= 1 && pageSize > 0
    requires (currentPage - 1) * pageSize <= |items|
    ensures var r := PageRangeOf(currentPage, pageSize, |items|);
            0 <= r.start - 1 <= r.end <= |items| && Page(items, currentPage, pageSize) == items[r.start - 1..r.end]
  {
    PageWindow(items, currentPage, pageSize);
    NonNegProduct(currentPage - 1, pageSize);
  }

  /** Every page from 1 to `totalPages` starts before the end of a non-empty list. */
  lemma InRangePageStarts(total: int, pageSize: int, page: int)
    requires pageSize > 0 && total > 0
    requires 1 <= page && AtMost(page, TotalPagesOf(total, pageSize))
    ensures (page - 1) * pageSize < total
  {
    var n := TotalPagesOf(total, pageSize).n;
    assert (page - 1) * pageSize <= (n - 1) * pageSize by {
      NonNegProduct(n - page, pageSize);
      assert (n - 1) * pageSize - (page - 1) * pageSize == (n - page) * pageSize;
    }
  }

  class Pager {
    const initialPage: int
    const initialPageSize: int
    var currentPage: int
    var pageSize: int
    var total: int

    constructor (initialPage: int, initialPageSize: int)
      ensures this.initialPage == initialPage && this.initialPageSize == initialPageSize
      ensures currentPage == initialPage && pageSize == initialPageSize && total == 0
    {
      this.initialPage := initialPage;
      this.initialPageSize := initialPageSize;
      currentPage := initialPage;
      pageSize := initialPageSize;
      total := 0;
    }

    function TotalPages(): (r: PageCount)
      reads this
      ensures total >= 0 && pageSize >= 0 ==> AtMost(1, r)
    {
      TotalPagesOf(total, pageSize)
    }

    function PageRange(): Range
      reads this
    {
      PageRangeOf(currentPage, pageSize, total)
    }

    predicate HasPrev()
      reads this
    {
      currentPage > 1
    }

    predicate HasNext()
      reads this
    {
      Below(currentPage, TotalPages())
    }

    /** The current page is one of the pages. */
    predicate InRange()
      reads this
    {
      1 <= currentPage && AtMost(currentPage, TotalPages())
    }

    /** Changes only `total`. */
    method SetTotal(value: int)
      modifies this
      ensures total == value && currentPage == old(currentPage) && pageSize == old(pageSize)
    {
      total := value;
    }

    /** Moves to `page` when it is one of the pages; otherwise nothing changes. */
    method HandlePageChange(page: int)
      modifies this
      ensures total == old(total) && pageSize == old(pageSize)
      ensures 1 <= page && AtMost(page, old(TotalPages())) ==> currentPage == page && InRange()
      ensures !(1 <= page && AtMost(page, old(TotalPages()))) ==> currentPage == old(currentPage)
    {
      if page >= 1 && AtMost(page, TotalPages()) {
        currentPage := page;
      }
    }

    /** `goToPage` has the same guard and effect as `handlePageChange`. */
    method GoToPage(page: int)
      modifies this
      ensures total == old(total) && pageSize == old(pageSize)
      ensures 1 <= page && AtMost(page, old(TotalPages())) ==> currentPage == page && InRange()
      ensures !(1 <= page && AtMost(page, old(TotalPages()))) ==> currentPage == old(currentPage)
    {
      HandlePageChange(page);
    }

    /** A new page size starts again from the first page, which is one of
        the pages unless the size or the total is negative. */
    method HandleSizeChange(size: int)
      modifies this
      ensures pageSize == size && currentPage == 1 && total == old(total)
      ensures total >= 0 && size >= 0 ==> InRange()
    {
      pageSize := size;
      currentPage := 1;
    }

    method Prev()
      modifies this
      ensures total == old(total) && pageSize == old(pageSize)
      ensures currentPage == if old(HasPrev()) then old(currentPage) - 1 else old(currentPage)
      ensures old(InRange()) ==> InRange()
    {
      if HasPrev() {
        currentPage := currentPage - 1;
      }
    }

    method Next()
      modifies this
      ensures total == old(total) && pageSize == old(pageSize)
      ensures currentPage == if old(HasNext()) then old(currentPage) + 1 else old(currentPage)
      ensures old(InRange()) ==> InRange()
    {
      if HasNext() {
        currentPage := currentPage + 1;
      }
    }

    /** Back to the initial page and page size, with nothing counted. */
    method Reset()
      modifies this
      ensures currentPage == initialPage && pageSize == initialPageSize && total == 0
    {
      currentPage := initialPage;
      pageSize := initialPageSize;
      total := 0;
    }
  }
}
