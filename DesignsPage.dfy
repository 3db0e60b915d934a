/** The designs catalogue page: a five-page pager with Prev and Next buttons
    and one button per page number, and a sort dropdown. */
module DesignsPage {

  const TotalPages := 5
  const InitialPage := 3

  const SortOptions: seq<string> := ["Most Popular", "Newest First", "Price: Low to High", "Price: High to Low"]

  /** The Prev button's update `Math.max(1, p - 1)` */
  function PrevPage(p: int): (r: int)
    ensures r >= 1 && r >= p - 1
    ensures r == 1 || r == p - 1
  {
    if p - 1 < 1 then 1 else p - 1
  }

  /** The Next button's update `Math.min(totalPages, p + 1)` */
  function NextPage(p: int): (r: int)
    ensures r <= TotalPages && r <= p + 1
    ensures r == TotalPages || r == p + 1
  {
    if p + 1 > TotalPages then TotalPages else p + 1
  }

  /** The page-number buttons `Array.from({ length: totalPages }, (_, i) => i + 1)` */
  function PageNumbers(): (pages: seq<int>)
    ensures |pages| == TotalPages
    ensures forall i :: 0 <= i < |pages| ==> pages[i] == i + 1
  {
    seq(TotalPages, i => i + 1)
  }

  /** Every page-number button names a page in range, and every page has one. */
  lemma PageNumbersCoverRange()
    ensures forall k :: k in PageNumbers() <==> 1 <= k <= TotalPages
  {
    var pages := PageNumbers();
    forall k | 1 <= k <= TotalPages
      ensures k in pages
    {
      assert pages[k - 1] == k;
    }
  }

  /** Next then Prev returns to the page left, except from the last page. */
  lemma PrevUndoesNext(p: int)
    requires 1 <= p < TotalPages
    ensures PrevPage(NextPage(p)) == p
  {
  }

  /** From the last page, Next stays and Prev then moves back one. */
  lemma NextSaturatesAtLastPage()
    ensures NextPage(TotalPages) == TotalPages
    ensures PrevPage(NextPage(TotalPages)) == TotalPages - 1
  {
  }

  class DesignsView {
    var currentPage: int
    var sortBy: string
    var showSortDropdown: bool

    /** The page is in range and the sort is one of the options. */
    predicate Valid()
      reads this
    {
      1 <= currentPage <= TotalPages && sortBy in SortOptions
    }

    constructor ()
      ensures currentPage == InitialPage && sortBy == SortOptions[0] && !showSortDropdown
      ensures Valid()
    {
      currentPage := InitialPage;
      sortBy := SortOptions[0];
      showSortDropdown := false;
    }

    function PrevDisabled(): (disabled: bool)
      reads this
      ensures disabled <==> currentPage == 1
    {
      currentPage == 1
    }

    function NextDisabled(): (disabled: bool)
      reads this
      ensures disabled <==> currentPage == TotalPages
    {
      currentPage == TotalPages
    }

    /** The Prev button: one page back, never before the first. */
    method Prev()
      requires Valid()
      modifies this
      ensures Valid()
      ensures currentPage == PrevPage(old(currentPage))
      ensures old(currentPage) > 1 ==> currentPage == old(currentPage) - 1
      ensures sortBy == old(sortBy) && showSortDropdown == old(showSortDropdown)
    {
      currentPage := PrevPage(currentPage);
    }

    /** The Next button: one page on, never past the last. */
    method Next()
      requires Valid()
      modifies this
      ensures Valid()
      ensures currentPage == NextPage(old(currentPage))
      ensures old(currentPage) < TotalPages ==> currentPage == old(currentPage) + 1
      ensures sortBy == old(sortBy) && showSortDropdown == old(showSortDropdown)
    {
      currentPage := NextPage(currentPage);
    }

    /** A page-number button; only the listed numbers exist as buttons. */
    method SelectPage(page: int)
      requires Valid() && page in PageNumbers()
      modifies this
      ensures Valid()
      ensures currentPage == page
      ensures sortBy == old(sortBy) && showSortDropdown == old(showSortDropdown)
    {
      PageNumbersCoverRange();
      currentPage := page;
    }

    /** The sort button opens a closed dropdown and closes an open one. */
    method ToggleSortDropdown()
      requires Valid()
      modifies this
      ensures Valid()
      ensures showSortDropdown == !old(showSortDropdown)
      ensures currentPage == old(currentPage) && sortBy == old(sortBy)
    {
      showSortDropdown := !showSortDropdown;
    }

    /** Choosing a sort option selects it and closes the dropdown. */
    method ChooseSort(option: string)
      requires Valid() && option in SortOptions
      modifies this
      ensures Valid()
      ensures sortBy == option && !showSortDropdown
      ensures currentPage == old(currentPage)
    {
      sortBy := option;
      showSortDropdown := false;
    }
  }
}
