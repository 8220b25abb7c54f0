/** `PaginationAdmin`: previous/next buttons that move the page by one,
    guarded by `goToPage`'s range check and by the buttons' disabled flags.
 */
module Pagination {

  /** `goToPage(newPage)`: the page after the request. */
  function GoToPage(page: int, totalPages: int, newPage: int): (r: int)
    ensures 1 <= newPage <= totalPages ==> r == newPage
    ensures !(1 <= newPage <= totalPages) ==> r == page
  {
    if newPage >= 1 && newPage <= totalPages then newPage else page
  }

  predicate PrevDisabled(page: int) { page == 1 }

  predicate NextDisabled(page: int, totalPages: int) { page == totalPages }

  /** A click on the previous button; a disabled button receives none. */
  function ClickPrev(page: int, totalPages: int): (r: int)
    ensures r == page || (r == page - 1 && 1 <= r <= totalPages)
    ensures r != page <==> page != 1 && 2 <= page <= totalPages + 1
  {
    if PrevDisabled(page) then page else GoToPage(page, totalPages, page - 1)
  }

  /** A click on the next button; a disabled button receives none. */
  function ClickNext(page: int, totalPages: int): (r: int)
    ensures r == page || (r == page + 1 && 1 <= r <= totalPages)
    ensures r != page <==> page != totalPages && 0 <= page <= totalPages - 1
  {
    if NextDisabled(page, totalPages) then page else GoToPage(page, totalPages, page + 1)
  }

  /** A page in range stays in range, whichever button is clicked. */
  lemma StaysInRange(page: int, totalPages: int)
    requires 1 <= page <= totalPages
    ensures 1 <= ClickPrev(page, totalPages) <= totalPages
    ensures 1 <= ClickNext(page, totalPages) <= totalPages
  {
  }

  /** From a page in range, an enabled button moves exactly one page and a
      disabled one does not move. */
  lemma EnabledClickMovesByOne(page: int, totalPages: int)
    requires 1 <= page <= totalPages
    ensures !PrevDisabled(page) <==> ClickPrev(page, totalPages) == page - 1
    ensures !NextDisabled(page, totalPages) <==> ClickNext(page, totalPages) == page + 1
    ensures PrevDisabled(page) <==> ClickPrev(page, totalPages) == page
    ensures NextDisabled(page, totalPages) <==> ClickNext(page, totalPages) == page
  {
  }

  /** Previous then next comes back to the same page. */
  lemma PrevThenNext(page: int, totalPages: int)
    requires 1 < page <= totalPages
    ensures ClickNext(ClickPrev(page, totalPages), totalPages) == page
  {
  }

  /** Out of range, `goToPage` ignores the request. */
  lemma OutOfRangeIgnored(page: int, totalPages: int, newPage: int)
    requires newPage < 1 || newPage > totalPages
    ensures GoToPage(page, totalPages, newPage) == page
  {
  }
}
