/** The React table view: the page-number buttons below the table, the
    disabled state of the previous/next buttons, and the row-click toggle
    that expands at most one row. Rendering itself is not modelled. */
module TableView {
  import opened Wrappers

  /** At most this many numbered page buttons are shown. */
  const MaxVisible: int := 5

  /** `n` consecutive page numbers starting at `first`. */
  function Run(first: int, n: nat): (pages: seq<int>)
    ensures |pages| == n
  {
    seq(n, k => first + k)
  }

  /** `Array.from({ length: Math.min(5, totalPages) })`: the number of
      numbered buttons. A negative length is read as 0. */
  function ButtonCount(totalPages: int): (n: nat)
    ensures n <= MaxVisible
    ensures totalPages >= 0 ==> n <= totalPages
    ensures n == MaxVisible || n == totalPages || (totalPages <= 0 && n == 0)
    ensures totalPages < 0 ==> n == 0
  {
    if totalPages >= MaxVisible then MaxVisible
    else if totalPages < 0 then 0
    else totalPages
  }

  /** The page number on button `i`: the whole range when there are at most
      five pages, the first five near the start, the last five near the end,
      and the current page with two neighbours on each side otherwise. */
  function PageNumber(currentPage: int, totalPages: int, i: int): (page: int)
    ensures 1 <= currentPage <= totalPages && 0 <= i < ButtonCount(totalPages) ==> 1 <= page <= totalPages
    ensures totalPages > MaxVisible && 0 <= i < MaxVisible && 1 <= currentPage <= totalPages
      ==> currentPage - 4 <= page <= currentPage + 4
  {
    if totalPages <= MaxVisible then i + 1
    else if currentPage <= 3 then i + 1
    else if currentPage >= totalPages - 2 then totalPages - 4 + i
    else currentPage - 2 + i
  }

  /** The numbers of the page buttons, in display order. */
  function PageNumbers(currentPage: int, totalPages: int): (pages: seq<int>)
    ensures |pages| == ButtonCount(totalPages)
  {
    seq(ButtonCount(totalPages), i => PageNumber(currentPage, totalPages, i))
  }

  /** The four rules of the page-number expression, each as a run of
      consecutive pages. */
  lemma PageNumbersRules(currentPage: int, totalPages: int)
    ensures 0 <= totalPages <= MaxVisible ==> PageNumbers(currentPage, totalPages) == Run(1, totalPages)
    ensures totalPages > MaxVisible && currentPage <= 3 ==> PageNumbers(currentPage, totalPages) == Run(1, 5)
    ensures totalPages > MaxVisible && 3 < currentPage && currentPage >= totalPages - 2
      ==> PageNumbers(currentPage, totalPages) == Run(totalPages - 4, 5)
    ensures totalPages > MaxVisible && 3 < currentPage < totalPages - 2
      ==> PageNumbers(currentPage, totalPages) == Run(currentPage - 2, 5)
  {
  }

  /** For a current page inside `[1, totalPages]` the buttons show
      `min(5, totalPages)` consecutive pages, all of them existing pages, one
      of them the current page (the one marked active). */
  lemma {:induction false} PageWindow(currentPage: int, totalPages: int)
    requires 1 <= currentPage <= totalPages
    ensures var pages := PageNumbers(currentPage, totalPages);
      && |pages| == (if totalPages < MaxVisible then totalPages else MaxVisible)
      && pages == Run(pages[0], |pages|)
      && 1 <= pages[0]
      && pages[|pages| - 1] <= totalPages
      && currentPage in pages
  {
    var pages := PageNumbers(currentPage, totalPages);
    PageNumbersRules(currentPage, totalPages);
    var first := pages[0];
    assert pages == Run(first, |pages|);
    assert pages[currentPage - first] == currentPage;
  }

  /** The previous button is disabled on the first page: for a page that
      exists, exactly when the page before it does not. */
  predicate PrevDisabled(currentPage: int): (disabled: bool)
    ensures currentPage >= 1 ==> (disabled <==> currentPage - 1 < 1)
  {
    currentPage == 1
  }

  /** The next button is disabled on the last page: for a page that exists,
      exactly when the page after it does not. */
  predicate NextDisabled(currentPage: int, totalPages: int): (disabled: bool)
    ensures currentPage <= totalPages ==> (disabled <==> currentPage + 1 > totalPages)
  {
    currentPage == totalPages
  }

  /** `handleRowClick(index)`: a click on the expanded row collapses it; a
      click on any other row expands that row instead. */
  function HandleRowClick(expanded: Option<int>, index: int): (r: Option<int>)
    ensures r == None <==> expanded == Some(index)
    ensures r != None ==> r == Some(index)
  {
    if expanded == Some(index) then None else Some(index)
  }

  /** Two clicks on the same row restore the previous state exactly when no
      row or that row was expanded; when another row was expanded, they leave
      every row collapsed. */
  lemma RowClickTwice(expanded: Option<int>, index: int)
    ensures HandleRowClick(HandleRowClick(expanded, index), index) == expanded
      <==> (expanded == None || expanded == Some(index))
    ensures expanded != None && expanded != Some(index)
      ==> HandleRowClick(HandleRowClick(expanded, index), index) == None
  {
  }
}
