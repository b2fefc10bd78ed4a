/** The pagination bar: the windowed list of page buttons with ellipses, and when the
    Previous, Next and page buttons act. */
module Pagination {
  import opened Common

  /** One button of the page list: a page number or the `'...'` placeholder. */
  datatype PageItem = Page(n: int) | Ellipsis

  const MaxVisiblePages := 5

  /** `Array.from({ length: totalPages }, (_, i) => i + 1)`. */
  function Pages(totalPages: nat): (r: seq<PageItem>)
    ensures |r| == totalPages
    ensures forall i :: 0 <= i < |r| ==> r[i] == Page(i + 1)
  {
    seq(totalPages, i requires 0 <= i < totalPages => Page(i + 1))
  }

  /** `renderPageNumbers`. */
  function RenderPageNumbers(currentPage: int, totalPages: nat): (r: seq<PageItem>)
    ensures totalPages <= MaxVisiblePages ==> r == Pages(totalPages)
    ensures totalPages > MaxVisiblePages && currentPage <= 3 ==>
      r == [Page(1), Page(2), Page(3), Page(4), Ellipsis, Page(totalPages)]
    ensures totalPages > MaxVisiblePages && 3 < currentPage && currentPage >= totalPages - 2 ==>
      r == [Page(1), Ellipsis, Page(totalPages - 3), Page(totalPages - 2), Page(totalPages - 1), Page(totalPages)]
    ensures totalPages > MaxVisiblePages && 3 < currentPage < totalPages - 2 ==>
      r == [Page(1), Ellipsis, Page(currentPage - 1), Page(currentPage), Page(currentPage + 1), Ellipsis, Page(totalPages)]
  {
    var pages := Pages(totalPages);
    if totalPages <= MaxVisiblePages then pages
    else if currentPage <= 3 then pages[..4] + [Ellipsis, Page(totalPages)]
    else if currentPage >= totalPages - 2 then [Page(1), Ellipsis] + pages[totalPages - 4..]
    else [Page(1), Ellipsis, Page(currentPage - 1), Page(currentPage), Page(currentPage + 1), Ellipsis, Page(totalPages)]
  }

  /** The page numbers of a list, in order. */
  function Numbers(items: seq<PageItem>): (r: seq<int>)
    decreases |items|
  {
    if items == [] then []
    else (if items[0].Page? then [items[0].n] else []) + Numbers(items[1..])
  }

  predicate StrictlyIncreasing(s: seq<int>) {
    forall i, j :: 0 <= i < j < |s| ==> s[i] < s[j]
  }

  /** The shape of a windowed list: it starts at page 1, ends at the last page, has at
      most seven buttons, numbers that strictly increase and lie between 1 and the last
      page, and never two ellipses side by side. */
  predicate WellShaped(r: seq<PageItem>, totalPages: int) {
    && 0 < |r| <= 7
    && r[0] == Page(1) && r[|r| - 1] == Page(totalPages)
    && StrictlyIncreasing(Numbers(r))
    && (forall n :: n in Numbers(r) ==> 1 <= n <= totalPages)
    && (forall i :: 0 <= i < |r| - 1 ==> !(r[i].Ellipsis? && r[i + 1].Ellipsis?))
  }

  /** With more than five pages every window is well shaped. */
  lemma WindowShape(currentPage: int, totalPages: nat)
    requires totalPages > MaxVisiblePages
    ensures WellShaped(RenderPageNumbers(currentPage, totalPages), totalPages)
  {
    var t := totalPages;
    if currentPage <= 3 {
      StartShape(t);
    } else if currentPage >= t - 2 {
      EndShape(t);
    } else {
      MiddleShape(currentPage, t);
    }
  }

  lemma StartShape(t: int)
    requires t > MaxVisiblePages
    ensures WellShaped([Page(1), Page(2), Page(3), Page(4), Ellipsis, Page(t)], t)
  {
    StartNumbers(t);
    Increasing5(1, 2, 3, 4, t);
    ShapeFrom([Page(1), Page(2), Page(3), Page(4), Ellipsis, Page(t)], t, [1, 2, 3, 4, t]);
  }

  lemma StartNumbers(t: int)
    ensures Numbers([Page(1), Page(2), Page(3), Page(4), Ellipsis, Page(t)]) == [1, 2, 3, 4, t]
  {
    NumbersOfSix(Page(1), Page(2), Page(3), Page(4), Ellipsis, Page(t));
  }

  lemma EndShape(t: int)
    requires t > MaxVisiblePages
    ensures WellShaped([Page(1), Ellipsis, Page(t - 3), Page(t - 2), Page(t - 1), Page(t)], t)
  {
    EndNumbers(t);
    Increasing5(1, t - 3, t - 2, t - 1, t);
    ShapeFrom([Page(1), Ellipsis, Page(t - 3), Page(t - 2), Page(t - 1), Page(t)], t, [1, t - 3, t - 2, t - 1, t]);
  }

  lemma EndNumbers(t: int)
    ensures Numbers([Page(1), Ellipsis, Page(t - 3), Page(t - 2), Page(t - 1), Page(t)]) == [1, t - 3, t - 2, t - 1, t]
  {
    NumbersOfSix(Page(1), Ellipsis, Page(t - 3), Page(t - 2), Page(t - 1), Page(t));
  }

  lemma MiddleShape(c: int, t: int)
    requires t > MaxVisiblePages && 3 < c < t - 2
    ensures WellShaped([Page(1), Ellipsis, Page(c - 1), Page(c), Page(c + 1), Ellipsis, Page(t)], t)
  {
    MiddleNumbers(c, t);
    Increasing5(1, c - 1, c, c + 1, t);
    ShapeFrom([Page(1), Ellipsis, Page(c - 1), Page(c), Page(c + 1), Ellipsis, Page(t)], t, [1, c - 1, c, c + 1, t]);
  }

  lemma MiddleNumbers(c: int, t: int)
    ensures Numbers([Page(1), Ellipsis, Page(c - 1), Page(c), Page(c + 1), Ellipsis, Page(t)]) == [1, c - 1, c, c + 1, t]
  {
    var r6 := [Page(1), Ellipsis, Page(c - 1), Page(c), Page(c + 1), Ellipsis];
    NumbersOfSix(Page(1), Ellipsis, Page(c - 1), Page(c), Page(c + 1), Ellipsis);
    NumbersConcat(r6, [Page(t)]);
    assert r6 + [Page(t)] == [Page(1), Ellipsis, Page(c - 1), Page(c), Page(c + 1), Ellipsis, Page(t)];
    assert Numbers([Page(t)]) == [t];
  }

  /** The shape conditions, given the numbers of the list. */
  lemma ShapeFrom(r: seq<PageItem>, t: int, nums: seq<int>)
    requires 0 < |r| <= 7 && r[0] == Page(1) && r[|r| - 1] == Page(t)
    requires Numbers(r) == nums && StrictlyIncreasing(nums)
    requires forall k :: 0 <= k < |nums| ==> 1 <= nums[k] <= t
    requires forall i :: 0 <= i < |r| - 1 ==> !(r[i].Ellipsis? && r[i + 1].Ellipsis?)
    ensures WellShaped(r, t)
  {
  }

  lemma Increasing5(a: int, b: int, c: int, d: int, e: int)
    requires a < b < c < d < e
    ensures StrictlyIncreasing([a, b, c, d, e])
  {
    var s := [a, b, c, d, e];
    forall i, j | 0 <= i < j < 5 ensures s[i] < s[j] {
    }
  }

  lemma {:induction false} NumbersConcat(a: seq<PageItem>, b: seq<PageItem>)
    ensures Numbers(a + b) == Numbers(a) + Numbers(b)
    decreases |a|
  {
    if a == [] {
      assert a + b == b;
    } else {
      var head: seq<int> := if a[0].Page? then [a[0].n] else [];
      assert (a + b)[0] == a[0] && (a + b)[1..] == a[1..] + b;
      NumbersConcat(a[1..], b);
      assert Numbers(a + b) == head + Numbers(a[1..] + b);
      assert Numbers(a) == head + Numbers(a[1..]);
    }
  }

  /** `Numbers` of six buttons, one at a time. */
  lemma NumbersOfSix(x1: PageItem, x2: PageItem, x3: PageItem, x4: PageItem, x5: PageItem, x6: PageItem)
    ensures Numbers([x1, x2, x3, x4, x5, x6])
      == Numbers([x1]) + Numbers([x2]) + Numbers([x3]) + Numbers([x4]) + Numbers([x5]) + Numbers([x6])
  {
    assert [x1, x2, x3, x4, x5, x6] == [x1] + [x2] + [x3] + [x4] + [x5] + [x6];
    NumbersConcat([x1] + [x2] + [x3] + [x4] + [x5], [x6]);
    NumbersConcat([x1] + [x2] + [x3] + [x4], [x5]);
    NumbersConcat([x1] + [x2] + [x3], [x4]);
    NumbersConcat([x1] + [x2], [x3]);
    NumbersConcat([x1], [x2]);
  }

  /** The current page, when it is a real page, is always among the buttons. */
  lemma CurrentPageShown(currentPage: int, totalPages: nat)
    requires 1 <= currentPage <= totalPages
    ensures Page(currentPage) in RenderPageNumbers(currentPage, totalPages)
  {
    var r := RenderPageNumbers(currentPage, totalPages);
    if totalPages <= MaxVisiblePages {
      assert r[currentPage - 1] == Page(currentPage);
    } else if currentPage <= 3 {
      assert r[currentPage - 1] == Page(currentPage);
    } else if currentPage >= totalPages - 2 {
      assert r[currentPage - totalPages + 5] == Page(currentPage);
    } else {
      assert r[3] == Page(currentPage);
    }
  }

  /** `disabled={currentPage === 1}`. */
  predicate PreviousDisabled(currentPage: int) { currentPage == 1 }

  /** `disabled={currentPage === totalPages}`. */
  predicate NextDisabled(currentPage: int, totalPages: nat) { currentPage == totalPages }

  /** The page `onPageChange` receives when Previous is clicked; a disabled button fires
      nothing. */
  function PreviousClick(currentPage: int): (r: Option<int>)
    ensures r.None? <==> PreviousDisabled(currentPage)
    ensures r.Some? ==> r.value == currentPage - 1
  {
    if PreviousDisabled(currentPage) then None else Some(currentPage - 1)
  }

  function NextClick(currentPage: int, totalPages: nat): (r: Option<int>)
    ensures r.None? <==> NextDisabled(currentPage, totalPages)
    ensures r.Some? ==> r.value == currentPage + 1
  {
    if NextDisabled(currentPage, totalPages) then None else Some(currentPage + 1)
  }

  /** `typeof page === 'number' && onPageChange(page)`: an ellipsis never changes page. */
  function PageClick(item: PageItem): (r: Option<int>)
    ensures r.None? <==> item.Ellipsis?
    ensures item.Page? ==> r == Some(item.n)
  {
    match item
    case Page(n) => Some(n)
    case Ellipsis => None
  }

  /** Every page a button of the list can request lies between 1 and the last page. */
  lemma ClicksStayInRange(currentPage: int, totalPages: nat, i: nat)
    requires i < |RenderPageNumbers(currentPage, totalPages)|
    ensures PageClick(RenderPageNumbers(currentPage, totalPages)[i]).Some? ==>
      1 <= PageClick(RenderPageNumbers(currentPage, totalPages)[i]).value <= totalPages
  {
  }
}
