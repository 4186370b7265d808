/** The older member list (src/component/MemberListComponent.tsx): the same fetch, status
    toggle and bounds test as the administrator's list, without client sorting or a role
    check, and with its own previous/next buttons. */
module LegacyMemberList {
  import opened Wrappers
  import Paging
  import MemberList

  class LegacyMemberListPage {
    var members: seq<MemberList.Member>
    var currentPage: int
    var totalPages: int
    var totalElements: int

    constructor ()
      ensures members == [] && currentPage == 0 && totalPages == 0 && totalElements == 0
    {
      members := [];
      currentPage := 0;
      totalPages := 0;
      totalElements := 0;
    }

    /** The completion of `fetchMembers`. */
    method ApplyFetch(result: Result<MemberList.MemberPage, string>)
      modifies this
      ensures result.Ok? ==> members == result.value.content && currentPage == result.value.currentPage
                             && totalPages == result.value.totalPages
                             && totalElements == result.value.totalElements
      ensures result.Err? ==> members == old(members) && currentPage == old(currentPage)
                              && totalPages == old(totalPages) && totalElements == old(totalElements)
    {
      if result.Ok? {
        members := result.value.content;
        currentPage := result.value.currentPage;
        totalPages := result.value.totalPages;
        totalElements := result.value.totalElements;
      }
    }

    /** `handlePageChange`: only an accepted page is fetched; nothing changes here. */
    method HandlePageChange(page: int) returns (fetch: Option<int>)
      ensures fetch.Some? <==> Paging.Accepts(page, totalPages)
      ensures fetch.Some? ==> fetch.value == page
    {
      if page >= 0 && page < totalPages {
        fetch := Some(page);
      } else {
        fetch := None;
      }
    }

    /** The previous and next buttons of this list. */
    function PrevButton(): (r: Paging.Arrow)
      reads this
      ensures r.target == currentPage - 1 && (r.disabled <==> currentPage == 0)
    {
      Paging.Prev(currentPage)
    }

    function NextButton(): (r: Paging.Arrow)
      reads this
      ensures r.target == currentPage + 1 && (r.disabled <==> currentPage == totalPages - 1)
    {
      Paging.Next(currentPage, totalPages)
    }

    /** `handleStatusChange`: the same toggle as the administrator's list. */
    method HandleStatusChange(memId: string, current: string, confirmed: bool, serverOk: bool)
      returns (request: Option<MemberList.StatusRequest>, refetch: Option<int>)
      ensures request.Some? <==> confirmed
      ensures request.Some? ==> request.value == MemberList.StatusRequest(memId, MemberList.NextStatus(current))
      ensures refetch.Some? <==> confirmed && serverOk
      ensures refetch.Some? ==> refetch.value == currentPage
    {
      if !confirmed {
        return None, None;
      }
      request := Some(MemberList.StatusRequest(memId, MemberList.NextStatus(current)));
      refetch := if serverOk then Some(currentPage) else None;
    }
  }

  /** After a page is loaded whose number is in range, each enabled button leads to a page
      change that fetches; on an empty list the next button is enabled but fetches nothing. */
  method ButtonsAgreeWithGuard(page: MemberList.MemberPage)
    returns (prevFetch: Option<int>, nextFetch: Option<int>, prevEnabled: bool, nextEnabled: bool)
    ensures Paging.Accepts(page.currentPage, page.totalPages) ==>
              (prevEnabled ==> prevFetch == Some(page.currentPage - 1))
              && (nextEnabled ==> nextFetch == Some(page.currentPage + 1))
    ensures page.currentPage == 0 && page.totalPages == 0 ==> nextEnabled && nextFetch.None?
  {
    var list := new LegacyMemberListPage();
    list.ApplyFetch(Ok(page));
    var prev, next := list.PrevButton(), list.NextButton();
    prevEnabled, nextEnabled := !prev.disabled, !next.disabled;
    prevFetch := list.HandlePageChange(prev.target);
    nextFetch := list.HandlePageChange(next.target);
  }
}
