/** The page selector of frontend/src/components/ui/Pagination.tsx: a window
    of at most five consecutive page numbers around the current page, with
    shortcuts to the first and last page and previous/next buttons. */
module Pagination {
  import opened Common

  const MaxVisiblePages: int := 5

  /** startPage after its possible correction at the end of the range. */
  function WindowStart(currentPage: int, totalPages: int): (r: int)
    ensures 1 <= r <= Max(1, currentPage - MaxVisiblePages / 2)
  {
    var start := Max(1, currentPage - MaxVisiblePages / 2);
    var end := Min(totalPages, start + MaxVisiblePages - 1);
    if end - start + 1 < MaxVisiblePages then Max(1, end - MaxVisiblePages + 1) else start
  }

  /** endPage, which is computed once from the uncorrected start. */
  function WindowEnd(currentPage: int, totalPages: int): (r: int)
    ensures r <= totalPages
    ensures r >= Min(totalPages, currentPage + MaxVisiblePages / 2)
  {
    Min(totalPages, Max(1, currentPage - MaxVisiblePages / 2) + MaxVisiblePages - 1)
  }

  /** The integers from `first` to `last`, both included. */
  function Range(first: int, last: int): (r: seq<int>)
    ensures forall k :: 0 <= k < |r| ==> first <= r[k] <= last
    ensures forall x :: first <= x <= last ==> x in r
  {
    var r := seq(if last >= first then last - first + 1 else 0, k => first + k);
    Consecutive(first, last, r);
    r
  }

  /** A list holding first, first + 1, ... up to last holds each of them. */
  lemma Consecutive(first: int, last: int, r: seq<int>)
    requires |r| == if last >= first then last - first + 1 else 0
    requires forall k :: 0 <= k < |r| ==> r[k] == first + k
    ensures forall x :: first <= x <= last ==> x in r
  {
    forall x | first <= x <= last
      ensures x in r
    {
      assert r[x - first] == x;
    }
  }

  /** The start, end and `pages` array the component computes. */
  method PageWindow(currentPage: int, totalPages: int) returns (startPage: int, endPage: int, pages: seq<int>)
    ensures startPage == WindowStart(currentPage, totalPages)
    ensures endPage == WindowEnd(currentPage, totalPages)
    ensures pages == Range(startPage, endPage)
  {
    startPage := Max(1, currentPage - MaxVisiblePages / 2);
    endPage := Min(totalPages, startPage + MaxVisiblePages - 1);
    if endPage - startPage + 1 < MaxVisiblePages {
      startPage := Max(1, endPage - MaxVisiblePages + 1);
    }
    pages := [];
    var i := startPage;
    while i <= endPage
      invariant startPage <= i <= Max(startPage, endPage + 1)
      invariant pages == Range(startPage, i - 1)
      decreases endPage - i
    {
      pages := pages + [i];
      i := i + 1;
    }
  }

  /** For at least one page the window lies within 1..totalPages and holds
      min(5, totalPages) pages, whatever the current page. */
  lemma WindowBounds(currentPage: int, totalPages: int)
    requires totalPages >= 1
    ensures 1 <= WindowStart(currentPage, totalPages)
    ensures WindowEnd(currentPage, totalPages) <= totalPages
    ensures WindowEnd(currentPage, totalPages) - WindowStart(currentPage, totalPages) + 1 == Min(MaxVisiblePages, totalPages)
    ensures |Range(WindowStart(currentPage, totalPages), WindowEnd(currentPage, totalPages))| == Min(MaxVisiblePages, totalPages)
  {
  }

  /** The pages are consecutive, from the start to the end of the window. */
  lemma RangeIsConsecutive(first: int, last: int)
    requires first <= last
    ensures |Range(first, last)| == last - first + 1
    ensures Range(first, last)[0] == first && Range(first, last)[last - first] == last
    ensures forall k :: 0 <= k < |Range(first, last)| - 1 ==> Range(first, last)[k + 1] == Range(first, last)[k] + 1
  {
  }

  /** A current page within range is always among the numbered buttons. */
  lemma CurrentIsVisible(currentPage: int, totalPages: int)
    requires 1 <= currentPage <= totalPages
    ensures WindowStart(currentPage, totalPages) <= currentPage <= WindowEnd(currentPage, totalPages)
    ensures currentPage in Range(WindowStart(currentPage, totalPages), WindowEnd(currentPage, totalPages))
  {
    var s := WindowStart(currentPage, totalPages);
    assert Range(s, WindowEnd(currentPage, totalPages))[currentPage - s] == currentPage;
  }

  /** The first-page shortcut shows iff there are more than five pages and
      the current one is past the third; the ellipsis after it iff there are
      more than six and the current one is past the fourth. */
  lemma FirstShortcut(currentPage: int, totalPages: int)
    requires 1 <= currentPage <= totalPages
    ensures WindowStart(currentPage, totalPages) > 1 <==> totalPages > 5 && currentPage > 3
    ensures WindowStart(currentPage, totalPages) > 2 <==> totalPages > 6 && currentPage > 4
  {
  }

  /** The last-page shortcut shows iff there are more than five pages and the
      current one is more than two before the end; the ellipsis before it iff
      more than six pages and more than three before the end. */
  lemma LastShortcut(currentPage: int, totalPages: int)
    requires 1 <= currentPage <= totalPages
    ensures WindowEnd(currentPage, totalPages) < totalPages <==> totalPages > 5 && currentPage < totalPages - 2
    ensures WindowEnd(currentPage, totalPages) < totalPages - 1 <==> totalPages > 6 && currentPage < totalPages - 3
  {
  }

  /** What the component renders, left to right. */
  datatype Control =
    | Previous(target: int, disabled: bool)
    | PageButton(page: int, active: bool)
    | Ellipsis
    | NextButton(target: int, disabled: bool)

  function LeadingControls(start: int): seq<Control>
  {
    if start > 1 then [PageButton(1, false)] + (if start > 2 then [Ellipsis] else []) else []
  }

  function TrailingControls(end: int, totalPages: int): seq<Control>
  {
    if end < totalPages then (if end < totalPages - 1 then [Ellipsis] else []) + [PageButton(totalPages, false)] else []
  }

  function WindowControls(pages: seq<int>, currentPage: int): seq<Control>
  {
    seq(|pages|, k requires 0 <= k < |pages| => PageButton(pages[k], pages[k] == currentPage))
  }

  /** Nothing for one page or fewer; otherwise previous, first shortcut,
      window, last shortcut, next. */
  function Render(currentPage: int, totalPages: int): (r: Option<seq<Control>>)
    ensures r.None? <==> totalPages <= 1
    ensures r.Some? ==> |r.value| >= 2 && r.value[0] == Previous(currentPage - 1, currentPage == 1)
    ensures r.Some? ==> |r.value| >= 2 && r.value[|r.value| - 1] == NextButton(currentPage + 1, currentPage == totalPages)
  {
    if totalPages <= 1 then None
    else
      var start, end := WindowStart(currentPage, totalPages), WindowEnd(currentPage, totalPages);
      Some([Previous(currentPage - 1, currentPage == 1)]
           + LeadingControls(start)
           + WindowControls(Range(start, end), currentPage)
           + TrailingControls(end, totalPages)
           + [NextButton(currentPage + 1, currentPage == totalPages)])
  }

  /** The page numbers the buttons offer, in order. */
  function PageNumbers(controls: seq<Control>): seq<int>
  {
    if controls == [] then []
    else (if controls[0].PageButton? then [controls[0].page] else []) + PageNumbers(controls[1..])
  }

  predicate StrictlyIncreasing(s: seq<int>)
  {
    forall i, j :: 0 <= i < j < |s| ==> s[i] < s[j]
  }

  lemma {:induction false} PageNumbersAppend(a: seq<Control>, b: seq<Control>)
    ensures PageNumbers(a + b) == PageNumbers(a) + PageNumbers(b)
    decreases |a|
  {
    if a == [] {
      assert a + b == b;
    } else {
      var ab := a + b;
      assert ab[0] == a[0];
      assert ab[1..] == a[1..] + b;
      var head := if a[0].PageButton? then [a[0].page] else [];
      PageNumbersAppend(a[1..], b);
      assert PageNumbers(ab) == head + (PageNumbers(a[1..]) + PageNumbers(b));
      assert PageNumbers(a) == head + PageNumbers(a[1..]);
    }
  }

  lemma {:induction false} WindowPageNumbers(pages: seq<int>, currentPage: int)
    ensures PageNumbers(WindowControls(pages, currentPage)) == pages
    decreases |pages|
  {
    if pages != [] {
      assert WindowControls(pages, currentPage)[1..] == WindowControls(pages[1..], currentPage);
      WindowPageNumbers(pages[1..], currentPage);
    }
  }

  lemma IncreasingJoin(a: seq<int>, b: seq<int>)
    requires StrictlyIncreasing(a) && StrictlyIncreasing(b)
    requires a != [] && b != [] ==> a[|a| - 1] < b[0]
    ensures StrictlyIncreasing(a + b)
  {
  }

  lemma LeadingNumbers(start: int)
    ensures PageNumbers(LeadingControls(start)) == if start > 1 then [1] else []
  {
    if start > 2 {
      PageNumbersAppend([PageButton(1, false)], [Ellipsis]);
    }
  }

  lemma TrailingNumbers(end: int, totalPages: int)
    ensures PageNumbers(TrailingControls(end, totalPages)) == if end < totalPages then [totalPages] else []
  {
    if end < totalPages - 1 {
      PageNumbersAppend([Ellipsis], [PageButton(totalPages, false)]);
    }
  }

  lemma PageNumbersOfFive(a: seq<Control>, b: seq<Control>, c: seq<Control>, d: seq<Control>, e: seq<Control>)
    ensures PageNumbers(a + b + c + d + e)
      == PageNumbers(a) + PageNumbers(b) + PageNumbers(c) + PageNumbers(d) + PageNumbers(e)
  {
    PageNumbersAppend(a, b);
    PageNumbersAppend(a + b, c);
    PageNumbersAppend(a + b + c, d);
    PageNumbersAppend(a + b + c + d, e);
  }

  /** The five groups Render joins, for the lemmas below. */
  lemma RenderParts(currentPage: int, totalPages: int)
    requires totalPages > 1
    ensures var start, end := WindowStart(currentPage, totalPages), WindowEnd(currentPage, totalPages);
      Render(currentPage, totalPages).value
        == [Previous(currentPage - 1, currentPage == 1)] + LeadingControls(start)
           + WindowControls(Range(start, end), currentPage) + TrailingControls(end, totalPages)
           + [NextButton(currentPage + 1, currentPage == totalPages)]
  {
  }

  /** The numbers offered are the first-page shortcut, the window and the
      last-page shortcut, in that order. */
  lemma RenderPageNumbers(currentPage: int, totalPages: int)
    requires totalPages > 1
    ensures var start, end := WindowStart(currentPage, totalPages), WindowEnd(currentPage, totalPages);
      PageNumbers(Render(currentPage, totalPages).value)
        == (if start > 1 then [1] else []) + Range(start, end) + (if end < totalPages then [totalPages] else [])
  {
    var start, end := WindowStart(currentPage, totalPages), WindowEnd(currentPage, totalPages);
    var prev, next := [Previous(currentPage - 1, currentPage == 1)], [NextButton(currentPage + 1, currentPage == totalPages)];
    var lead, window, trail := LeadingControls(start), WindowControls(Range(start, end), currentPage), TrailingControls(end, totalPages);
    RenderParts(currentPage, totalPages);
    PageNumbersOfFive(prev, lead, window, trail, next);
    assert PageNumbers(prev) == [];
    assert PageNumbers(next) == [];
    var leading, middle, trailing := PageNumbers(lead), PageNumbers(window), PageNumbers(trail);
    assert PageNumbers(Render(currentPage, totalPages).value) == leading + middle + trailing;
    LeadingNumbers(start);
    WindowPageNumbers(Range(start, end), currentPage);
    TrailingNumbers(end, totalPages);
  }

  /** No page number is offered twice: the shortcuts never repeat a number
      of the window, and the buttons ascend from left to right. */
  lemma PageNumbersAscend(currentPage: int, totalPages: int)
    requires totalPages > 1
    ensures StrictlyIncreasing(PageNumbers(Render(currentPage, totalPages).value))
  {
    var start, end := WindowStart(currentPage, totalPages), WindowEnd(currentPage, totalPages);
    WindowBounds(currentPage, totalPages);
    RenderPageNumbers(currentPage, totalPages);
    var lp := if start > 1 then [1] else [];
    var wp := Range(start, end);
    var tp := if end < totalPages then [totalPages] else [];
    IncreasingJoin(lp, wp);
    IncreasingJoin(lp + wp, tp);
  }
}
