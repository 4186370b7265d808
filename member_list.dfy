/** The administrator's member list (src/component/admin/MemberListComponent.tsx): a
    server page of members, a sort applied in the browser on a copy of that page, the page
    and search controls, and the status toggle. Server calls are represented by the
    requests the handlers issue and by the outcomes given back to them. */
module MemberList {
  import opened Wrappers
  import opened Text
  import Paging

  /** One row of the list. `createdAt` is the timestamp `new Date(createdAt).getTime()`
      yields for the row. */
  datatype Member = Member(
    memId: string, name: string, email: string, gender: string,
    role: string, status: string, createdAt: int)

  datatype SortField = ByMemId | ByName | ByEmail | ByCreatedAt

  datatype SortOrder = Asc | Desc

  datatype ClientSort = ClientSort(field: SortField, order: SortOrder)

  /** A page as the server returns it. */
  datatype MemberPage = MemberPage(content: seq<Member>, currentPage: int, totalPages: int, totalElements: int)

  /** What the mount-time role check does with the stored session. A missing session reads
      as `null`, and reading its role throws: the effect stops before the redirect or the
      fetch. */
  datatype Session = NoSession | Session(role: Option<string>)

  datatype Access = Crash | Denied | Allowed

  const AdminRole := "ADMIN"
  const Active := "ACTIVE"
  const Banned := "BANNED"
  const BanPrompt := "이 회원을 정지하시겠습니까?"
  const UnbanPrompt := "이 회원의 정지를 해제하시겠습니까?"

  /** `handleClientSort`: clicking the sorted column flips its order; any other click sorts
      by the clicked column, descending. */
  function NextSort(prev: Option<ClientSort>, field: SortField): (r: ClientSort)
    ensures r.field == field
    ensures prev.Some? && prev.value.field == field ==> r.order != prev.value.order
    ensures !(prev.Some? && prev.value.field == field) ==> r.order == Desc
  {
    if prev.Some? && prev.value.field == field then
      ClientSort(field, if prev.value.order == Asc then Desc else Asc)
    else ClientSort(field, Desc)
  }

  /** Clicking the same column twice restores the sort it had after the first click. */
  lemma SortClickTwice(prev: Option<ClientSort>, field: SortField)
    ensures NextSort(Some(NextSort(Some(NextSort(prev, field)), field)), field) == NextSort(prev, field)
  {
  }

  /** The text a column sorts by. */
  function TextOf(m: Member, f: SortField): string
  {
    match f
    case ByMemId => m.memId
    case ByName => m.name
    case ByEmail => m.email
    case ByCreatedAt => ""
  }

  /** The key order of a column: timestamps for the join date, strings otherwise. */
  predicate Before(a: Member, b: Member, f: SortField)
  {
    if f == ByCreatedAt then a.createdAt < b.createdAt else StrLess(TextOf(a, f), TextOf(b, f))
  }

  lemma BeforeAsymmetric(a: Member, b: Member, f: SortField)
    ensures !(Before(a, b, f) && Before(b, a, f))
  {
    if f != ByCreatedAt && Before(a, b, f) && Before(b, a, f) {
      StrLessTransitive(TextOf(a, f), TextOf(b, f), TextOf(a, f));
      StrLessIrreflexive(TextOf(a, f));
    }
  }

  /** A key below another is below or above any third key. */
  lemma BeforeSplits(a: Member, b: Member, c: Member, f: SortField)
    requires Before(a, c, f)
    ensures Before(a, b, f) || Before(b, c, f)
  {
    if f != ByCreatedAt {
      var x, y, z := TextOf(a, f), TextOf(b, f), TextOf(c, f);
      if x != y && !StrLess(x, y) {
        StrLessTotal(x, y);
        StrLessTransitive(y, x, z);
      }
    }
  }

  /** The comparator of `getSortedMembers` puts `a` after `b` exactly when this holds:
      ascending, when `a`'s key is above `b`'s; descending, when it is below. */
  predicate After(a: Member, b: Member, s: ClientSort)
  {
    if s.order == Asc then Before(b, a, s.field) else Before(a, b, s.field)
  }

  lemma AfterAsymmetric(a: Member, b: Member, s: ClientSort)
    ensures !(After(a, b, s) && After(b, a, s))
  {
    BeforeAsymmetric(a, b, s.field);
  }

  lemma AfterSplits(a: Member, b: Member, c: Member, s: ClientSort)
    requires After(a, c, s)
    ensures After(a, b, s) || After(b, c, s)
  {
    if s.order == Asc {
      BeforeSplits(c, b, a, s.field);
    } else {
      BeforeSplits(a, b, c, s.field);
    }
  }

  /** No row is placed before a row the comparator would put ahead of it. */
  predicate Ordered(ms: seq<Member>, s: ClientSort)
  {
    forall i, j :: 0 <= i < j < |ms| ==> !After(ms[i], ms[j], s)
  }

  /** Places one row into an ordered list. */
  function Insert(m: Member, ms: seq<Member>, s: ClientSort): (r: seq<Member>)
    ensures |r| == |ms| + 1
  {
    if ms == [] then [m]
    else if After(m, ms[0], s) then [ms[0]] + Insert(m, ms[1..], s)
    else [m] + ms
  }

  function SortBy(ms: seq<Member>, s: ClientSort): (r: seq<Member>)
    ensures |r| == |ms|
  {
    if ms == [] then [] else Insert(ms[0], SortBy(ms[1..], s), s)
  }

  lemma {:induction false} InsertKeepsRows(m: Member, ms: seq<Member>, s: ClientSort)
    ensures multiset(Insert(m, ms, s)) == multiset(ms) + multiset{m}
  {
    if ms != [] && After(m, ms[0], s) {
      InsertKeepsRows(m, ms[1..], s);
      assert ms == [ms[0]] + ms[1..];
    }
  }

  /** A row that no later row should precede heads an ordered list. */
  lemma OrderedCons(a: Member, t: seq<Member>, s: ClientSort)
    requires Ordered(t, s)
    requires forall k :: 0 <= k < |t| ==> !After(a, t[k], s)
    ensures Ordered([a] + t, s)
  {
    var r := [a] + t;
    forall i, j | 0 <= i < j < |r| ensures !After(r[i], r[j], s) {
      if i == 0 {
        assert r[j] == t[j - 1];
      } else {
        assert r[i] == t[i - 1] && r[j] == t[j - 1];
      }
    }
  }

  /** Every row of an ordered list can follow its head. */
  lemma HeadPrecedesAll(ms: seq<Member>, s: ClientSort, x: Member)
    requires ms != [] && Ordered(ms, s) && x in multiset(ms[1..])
    ensures !After(ms[0], x, s)
  {
    var k :| 0 <= k < |ms[1..]| && ms[1..][k] == x;
    assert ms[k + 1] == x;
  }

  lemma {:induction false} InsertKeepsOrder(m: Member, ms: seq<Member>, s: ClientSort)
    requires Ordered(ms, s)
    ensures Ordered(Insert(m, ms, s), s)
  {
    if ms == [] {
    } else if After(m, ms[0], s) {
      var tail := Insert(m, ms[1..], s);
      assert Ordered(ms[1..], s) by {
        forall i, j | 0 <= i < j < |ms[1..]| ensures !After(ms[1..][i], ms[1..][j], s) {
          assert ms[1..][i] == ms[i + 1] && ms[1..][j] == ms[j + 1];
        }
      }
      InsertKeepsOrder(m, ms[1..], s);
      InsertKeepsRows(m, ms[1..], s);
      forall k | 0 <= k < |tail| ensures !After(ms[0], tail[k], s) {
        assert tail[k] in multiset(tail);
        if tail[k] == m {
          AfterAsymmetric(m, ms[0], s);
        } else {
          HeadPrecedesAll(ms, s, tail[k]);
        }
      }
      OrderedCons(ms[0], tail, s);
    } else {
      forall k | 0 <= k < |ms| ensures !After(m, ms[k], s) {
        if k > 0 && After(m, ms[k], s) {
          AfterSplits(m, ms[0], ms[k], s);
        }
      }
      OrderedCons(m, ms, s);
    }
  }

  lemma {:induction false} SortByKeepsRows(ms: seq<Member>, s: ClientSort)
    ensures multiset(SortBy(ms, s)) == multiset(ms)
  {
    if ms != [] {
      SortByKeepsRows(ms[1..], s);
      InsertKeepsRows(ms[0], SortBy(ms[1..], s), s);
      assert ms == [ms[0]] + ms[1..];
    }
  }

  lemma {:induction false} SortByOrders(ms: seq<Member>, s: ClientSort)
    ensures Ordered(SortBy(ms, s), s)
  {
    if ms != [] {
      SortByOrders(ms[1..], s);
      InsertKeepsOrder(ms[0], SortBy(ms[1..], s), s);
    }
  }

  /** `getSortedMembers`: the page itself when no sort is chosen, otherwise an ordered
      rearrangement of a copy of it. */
  function SortedMembers(members: seq<Member>, clientSort: Option<ClientSort>): (r: seq<Member>)
    ensures multiset(r) == multiset(members)
  {
    if clientSort.None? then members
    else SortByKeepsRows(members, clientSort.value); SortBy(members, clientSort.value)
  }

  lemma SortedMembersIsSortedCopy(members: seq<Member>, clientSort: Option<ClientSort>)
    ensures clientSort.None? ==> SortedMembers(members, clientSort) == members
    ensures multiset(SortedMembers(members, clientSort)) == multiset(members)
    ensures clientSort.Some? ==> Ordered(SortedMembers(members, clientSort), clientSort.value)
  {
    if clientSort.Some? {
      SortByKeepsRows(members, clientSort.value);
      SortByOrders(members, clientSort.value);
    }
  }

  /** The status `handleStatusChange` asks for: ACTIVE becomes BANNED, anything else
      becomes ACTIVE. */
  function NextStatus(current: string): (r: string)
    ensures r == Banned <==> current == Active
    ensures r == Active <==> current != Active
  {
    if current == Active then Banned else Active
  }

  /** Toggling twice gives the status back exactly for the two known statuses. */
  lemma NextStatusTwice(s: string)
    ensures NextStatus(NextStatus(s)) == s <==> s == Active || s == Banned
  {
  }

  /** The confirmation shown before the status request. */
  function StatusPrompt(current: string): (r: string)
    ensures r == BanPrompt <==> current == Active
    ensures r == UnbanPrompt <==> current != Active
  {
    if NextStatus(current) == Banned then BanPrompt else UnbanPrompt
  }

  /** The role check on mount. */
  function CheckAccess(session: Session): (r: Access)
    ensures r == Crash <==> session == NoSession
    ensures r == Allowed <==> session == Session(Some(AdminRole))
  {
    match session
    case NoSession => Crash
    case Session(role) => if role == Some(AdminRole) then Allowed else Denied
  }

  /** A request `handleStatusChange` sends: the member and the status asked for. */
  datatype StatusRequest = StatusRequest(memId: string, status: string)

  class MemberListPage {
    var members: seq<Member>
    var currentPage: int
    var totalPages: int
    var totalElements: int
    var clientSort: Option<ClientSort>

    constructor ()
      ensures members == [] && currentPage == 0 && totalPages == 0 && totalElements == 0
      ensures clientSort.None?
    {
      members := [];
      currentPage := 0;
      totalPages := 0;
      totalElements := 0;
      clientSort := None;
    }

    /** The mount effect: the first page is fetched only for an administrator. */
    method Mount(session: Session) returns (access: Access, fetch: Option<int>)
      ensures access == CheckAccess(session)
      ensures fetch.Some? <==> access == Allowed
      ensures fetch.Some? ==> fetch.value == 0
    {
      access := CheckAccess(session);
      fetch := if access == Allowed then Some(0) else None;
    }

    /** The completion of `fetchMembers`: a page replaces the list and its counters; a
        failure leaves everything as it was. The client sort is kept either way. */
    method ApplyFetch(result: Result<MemberPage, string>)
      modifies this
      ensures clientSort == old(clientSort)
      ensures result.Ok? ==> members == result.value.content && currentPage == result.value.currentPage
                             && totalPages == result.value.totalPages
                             && totalElements == result.value.totalElements
      ensures result.Err? ==> members == old(members) && currentPage == old(currentPage)
                              && totalPages == old(totalPages) && totalElements == old(totalElements)
    {
      if result.Ok? {
        members := result.value.content;
        currentPage := result.value.currentPage;
        totalPages := result.value.totalPages;
        totalElements := result.value.totalElements;
      }
    }

    /** `handlePageChange`: an accepted page clears the client sort and is fetched;
        any other page changes nothing. */
    method HandlePageChange(page: int) returns (fetch: Option<int>)
      modifies this
      ensures fetch.Some? <==> Paging.Accepts(page, old(totalPages))
      ensures fetch.Some? ==> fetch.value == page && clientSort.None?
      ensures fetch.None? ==> clientSort == old(clientSort)
      ensures members == old(members) && currentPage == old(currentPage)
              && totalPages == old(totalPages) && totalElements == old(totalElements)
    {
      if page >= 0 && page < totalPages {
        clientSort := None;
        fetch := Some(page);
      } else {
        fetch := None;
      }
    }

    /** `onSearchClick`: back to the first page, without a client sort. */
    method OnSearchClick() returns (fetch: int)
      modifies this
      ensures fetch == 0 && currentPage == 0 && clientSort.None?
      ensures members == old(members) && totalPages == old(totalPages)
              && totalElements == old(totalElements)
    {
      currentPage := 0;
      clientSort := None;
      fetch := 0;
    }

    /** A column header click. */
    method HandleClientSort(field: SortField)
      modifies this
      ensures clientSort == Some(NextSort(old(clientSort), field))
      ensures members == old(members) && currentPage == old(currentPage)
              && totalPages == old(totalPages) && totalElements == old(totalElements)
    {
      clientSort := Some(NextSort(clientSort, field));
    }

    /** The rows as rendered. */
    function Rows(): (r: seq<Member>)
      reads this
      ensures multiset(r) == multiset(members)
    {
      SortedMembersIsSortedCopy(members, clientSort);
      SortedMembers(members, clientSort)
    }

    /** `handleStatusChange`, given the answer to the prompt and whether the request
        succeeded: a confirmed click asks for the toggled status, and a success refetches
        the current page. The list itself is only changed by that refetch. */
    method HandleStatusChange(memId: string, current: string, confirmed: bool, serverOk: bool)
      returns (request: Option<StatusRequest>, refetch: Option<int>)
      ensures request.Some? <==> confirmed
      ensures request.Some? ==> request.value == StatusRequest(memId, NextStatus(current))
      ensures refetch.Some? <==> confirmed && serverOk
      ensures refetch.Some? ==> refetch.value == currentPage
    {
      if !confirmed {
        return None, None;
      }
      request := Some(StatusRequest(memId, NextStatus(current)));
      refetch := if serverOk then Some(currentPage) else None;
    }

    /** `handleDelete`: a confirmed click deletes the member, and a success refetches the
        current page. */
    method HandleDelete(memId: string, confirmed: bool, serverOk: bool)
      returns (request: Option<string>, refetch: Option<int>)
      ensures request.Some? <==> confirmed
      ensures request.Some? ==> request.value == memId
      ensures refetch.Some? <==> confirmed && serverOk
      ensures refetch.Some? ==> refetch.value == currentPage
    {
      if !confirmed {
        return None, None;
      }
      request := Some(memId);
      refetch := if serverOk then Some(currentPage) else None;
    }
  }

  /** Sorting is undone by a page change: after a sort click and an accepted page change,
      the rows are shown in the server's order again. */
  method SortThenTurnPage(page: MemberPage, field: SortField, next: MemberPage)
    returns (sortedRows: seq<Member>, rows: seq<Member>)
    requires 1 < page.totalPages
    ensures multiset(sortedRows) == multiset(page.content)
    ensures rows == next.content
  {
    var list := new MemberListPage();
    list.ApplyFetch(Ok(page));
    list.HandleClientSort(field);
    sortedRows := list.Rows();
    var fetch := list.HandlePageChange(1);
    list.ApplyFetch(Ok(next));
    rows := list.Rows();
  }
}
