/** The page selector (src/component/common/PageComponent.tsx): a button per page, the
    current one marked active, and two arrows that request the neighbouring pages. It only
    asks for pages; the list that owns it decides whether a page is accepted. */
module Paging {

  datatype PageButton = PageButton(page: int, caption: int, active: bool)

  datatype Arrow = Arrow(target: int, disabled: bool)

  /** `Array.from({ length: totalPages }, ...)`: a negative length gives no buttons. */
  function Buttons(totalPages: int, currentPage: int): (r: seq<PageButton>)
    ensures |r| == if totalPages < 0 then 0 else totalPages
    ensures forall i :: 0 <= i < |r| ==> r[i].page == i && r[i].caption == i + 1
    ensures forall i :: 0 <= i < |r| ==> (r[i].active <==> i == currentPage)
  {
    if totalPages <= 0 then []
    else seq(totalPages, i => PageButton(i, i + 1, i == currentPage))
  }

  /** The positions of the buttons marked active. */
  function ActiveAt(bs: seq<PageButton>): set<int>
  {
    set i | 0 <= i < |bs| && bs[i].active
  }

  /** Exactly one button is active while the current page is in range, none otherwise. */
  lemma OneActiveButton(totalPages: int, currentPage: int)
    ensures ActiveAt(Buttons(totalPages, currentPage))
            == if 0 <= currentPage < totalPages then {currentPage} else {}
  {
    var bs := Buttons(totalPages, currentPage);
    if 0 <= currentPage < totalPages {
      assert bs[currentPage].active;
      assert currentPage in ActiveAt(bs);
    }
  }

  /** The previous-page arrow. */
  function Prev(currentPage: int): (r: Arrow)
    ensures r.target == currentPage - 1
    ensures r.disabled <==> currentPage == 0
  {
    Arrow(currentPage - 1, currentPage == 0)
  }

  /** The next-page arrow: disabled only on the last page, so with no pages at all it
      stays enabled. */
  function Next(currentPage: int, totalPages: int): (r: Arrow)
    ensures r.target == currentPage + 1
    ensures r.disabled <==> currentPage == totalPages - 1
  {
    Arrow(currentPage + 1, currentPage == totalPages - 1)
  }

  /** The bounds test both member lists apply before fetching a page. */
  predicate Accepts(page: int, totalPages: int)
  {
    0 <= page < totalPages
  }

  /** On a page that is in range, every enabled control requests an accepted page. */
  lemma EnabledControlsAreAccepted(currentPage: int, totalPages: int)
    requires Accepts(currentPage, totalPages)
    ensures !Prev(currentPage).disabled ==> Accepts(Prev(currentPage).target, totalPages)
    ensures var next := Next(currentPage, totalPages); !next.disabled ==> Accepts(next.target, totalPages)
    ensures forall b :: b in Buttons(totalPages, currentPage) ==> Accepts(b.page, totalPages)
  {
    var bs := Buttons(totalPages, currentPage);
    forall b | b in bs ensures Accepts(b.page, totalPages) {
      var i :| 0 <= i < |bs| && bs[i] == b;
    }
  }

  /** With no pages the next arrow is enabled yet requests a page that is refused, and the
      previous arrow is disabled. */
  lemma EmptyListNextIsRefused()
    ensures !Next(0, 0).disabled && !Accepts(Next(0, 0).target, 0)
    ensures Prev(0).disabled
    ensures Buttons(0, 0) == []
  {
  }
}
