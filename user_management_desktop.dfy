/**
 * The desktop user list: fifty generated demo users, filtered by status,
 * permission and a case-insensitive name-or-email search, shown one page at a
 * time with a guarded Next handler.
 */
module UserManagementDesktop {
  import opened Text
  import opened ListView

  /** A generated demo user. */
  datatype DemoUser = DemoUser(
    id: nat,
    name: string,
    email: string,
    department: string,
    created: string,
    status: string,
    permission: string)

  const Departments: seq<string> :=
    ["Engineering", "Marketing", "HR", "Finance", "Product", "Design", "Sales", "Support"]
  const Statuses: seq<string> := ["Active", "Inactive", "Pending"]
  const UserCount: nat := 50

  /** The element at index `i` of `Array.from({ length: 50 }, (_, i) => ...)`. */
  function MakeDemoUser(i: nat): DemoUser {
    DemoUser(
      i + 1,
      "User " + NatToString(i + 1),
      "user" + NatToString(i + 1) + "@gmail.com",
      Departments[i % |Departments|],
      "2025-09-25",
      Statuses[i % |Statuses|],
      if i % 4 == 0 then "Super Admin" else "User")
  }

  function DemoUsers(): (r: seq<DemoUser>)
    ensures |r| == UserCount
    ensures forall i :: 0 <= i < |r| ==> r[i] == MakeDemoUser(i)
  {
    seq(UserCount, (i: nat) => MakeDemoUser(i))
  }

  /**
   * The shape of the demo data: ids 1 to 50 in order, statuses cycling
   * Active/Inactive/Pending, and "Super Admin" exactly at the indices divisible by 4.
   */
  lemma DemoUsersShape(i: nat)
    requires i < UserCount
    ensures DemoUsers()[i].id == i + 1
    ensures DemoUsers()[i].status == ["Active", "Inactive", "Pending"][i % 3]
    ensures DemoUsers()[i].permission == "Super Admin" <==> i % 4 == 0
    ensures DemoUsers()[i].permission == "User" <==> i % 4 != 0
  {
  }

  /** How many users of `s` carry permission `p`. */
  function CountPermission(s: seq<DemoUser>, p: string): (n: nat)
    ensures n <= |s|
  {
    if s == [] then 0
    else CountPermission(s[..|s| - 1], p) + (if s[|s| - 1].permission == p then 1 else 0)
  }

  /** Among the first `n` demo users, the Super Admins are those with index 0, 4, 8, .... */
  lemma {:induction false} SuperAdminsInPrefix(n: nat)
    requires n <= UserCount
    ensures CountPermission(DemoUsers()[..n], "Super Admin") == (n + 3) / 4
    ensures CountPermission(DemoUsers()[..n], "User") == n - (n + 3) / 4
  {
    if n > 0 {
      SuperAdminsInPrefix(n - 1);
      var prefix := DemoUsers()[..n];
      assert prefix[..n - 1] == DemoUsers()[..n - 1];
      var last := MakeDemoUser(n - 1);
      assert prefix[n - 1] == last;
      assert last.permission == if (n - 1) % 4 == 0 then "Super Admin" else "User";
      QuarterStep(n);
    }
  }

  /** Adding index `n - 1` adds one multiple of 4 exactly when `n - 1` is one. */
  lemma QuarterStep(n: nat)
    requires n > 0
    ensures (n + 3) / 4 == (n + 2) / 4 + (if (n - 1) % 4 == 0 then 1 else 0)
  {
    var q, r := (n - 1) / 4, (n - 1) % 4;
    assert n - 1 == 4 * q + r;
    assert n + 3 == 4 * (q + 1) + r;
    assert n + 2 == 4 * q + (r + 3);
  }

  /** The demo data holds 13 Super Admins and 37 Users. */
  lemma SuperAdminCount()
    ensures CountPermission(DemoUsers(), "Super Admin") == 13
    ensures CountPermission(DemoUsers(), "User") == 37
  {
    SuperAdminsInPrefix(UserCount);
    assert DemoUsers()[..UserCount] == DemoUsers();
  }

  predicate StatusMatch(u: DemoUser, filter: string) {
    filter == "All" || u.status == filter
  }

  predicate PermissionMatch(u: DemoUser, filter: string) {
    filter == "All" || u.permission == filter
  }

  /** `name.toLowerCase().includes(term.toLowerCase()) || email.toLowerCase().includes(...)` */
  predicate SearchMatch(u: DemoUser, term: string) {
    Contains(Lower(u.name), Lower(term)) || Contains(Lower(u.email), Lower(term))
  }

  /** A demo user is listed when both filters pass and the search matches; an empty search matches everyone. */
  predicate Matches(u: DemoUser, f: FilterState): (r: bool)
    ensures r ==> StatusMatch(u, f.status) && PermissionMatch(u, f.permission)
    ensures f.search == "" ==> (r <==> StatusMatch(u, f.status) && PermissionMatch(u, f.permission))
  {
    ContainsEmpty(Lower(u.name));
    StatusMatch(u, f.status) && PermissionMatch(u, f.permission) && SearchMatch(u, f.search)
  }

  /** `filteredUsers`: the matching demo users, in id order. */
  function FilteredUsers(f: FilterState): (r: seq<DemoUser>)
    ensures IsSubsequence(r, DemoUsers())
    ensures forall u :: u in r <==> u in DemoUsers() && Matches(u, f)
  {
    Filter(DemoUsers(), (u: DemoUser) => Matches(u, f))
  }

  /** With no filters and an empty search all fifty users are listed. */
  lemma NoFiltersListsEveryone()
    ensures FilteredUsers(NoFilters) == DemoUsers()
  {
  }

  /** With no filters the list holds the fifty demo users in id order. */
  lemma UnfilteredIds(k: nat)
    requires k < UserCount
    ensures |FilteredUsers(NoFilters)| == UserCount && FilteredUsers(NoFilters)[k].id == k + 1
  {
    NoFiltersListsEveryone();
  }

  /** At 25 rows, no filters and an empty search, page 0 shows ids 1-25 under the label "1-25 of 50". */
  lemma FirstPageScenario()
    ensures |VisibleSlice(FilteredUsers(NoFilters), 0, 25)| == 25
    ensures forall k :: 0 <= k < 25 ==> VisibleSlice(FilteredUsers(NoFilters), 0, 25)[k].id == k + 1
    ensures Label(|FilteredUsers(NoFilters)|, 0, 25) == RangeLabel(1, 25, 50)
    ensures !NextDisabled(|FilteredUsers(NoFilters)|, 0, 25)
  {
    UnfilteredIds(0);
    forall k | 0 <= k < 25 ensures VisibleSlice(FilteredUsers(NoFilters), 0, 25)[k].id == k + 1 {
      UnfilteredIds(k);
    }
  }

  /** Next from page 0 moves to page 1; there Next is disabled and its handler stays put. */
  lemma SecondPageNavigation()
    ensures GuardedNextPage(0, 25, |FilteredUsers(NoFilters)|) == 1
    ensures NextDisabled(|FilteredUsers(NoFilters)|, 1, 25)
    ensures GuardedNextPage(1, 25, |FilteredUsers(NoFilters)|) == 1
  {
    UnfilteredIds(0);
  }

  /** Page 1 at 25 rows, no filters and an empty search shows ids 26-50 under "26-50 of 50". */
  lemma SecondPageScenario()
    ensures |VisibleSlice(FilteredUsers(NoFilters), 1, 25)| == 25
    ensures forall k :: 0 <= k < 25 ==> VisibleSlice(FilteredUsers(NoFilters), 1, 25)[k].id == 26 + k
    ensures Label(|FilteredUsers(NoFilters)|, 1, 25) == RangeLabel(26, 50, 50)
  {
    UnfilteredIds(0);
    var page := VisibleSlice(FilteredUsers(NoFilters), 1, 25);
    forall k | 0 <= k < 25 ensures page[k].id == 26 + k {
      UnfilteredIds(25 + k);
    }
  }

  /** The status and permission choices of the filter panel. */
  const StatusOptions: seq<string> := ["All", "Active", "Inactive", "Pending"]
  const PermissionOptions: seq<string> := ["All", "Super Admin", "User"]

  /** The hook state of the page. */
  class DesktopListView {
    var rowsPerPage: nat
    var page: nat
    var statusFilter: string
    var permissionFilter: string
    var searchTerm: string

    function Filters(): FilterState
      reads this
    {
      FilterState(searchTerm, statusFilter, permissionFilter)
    }

    function Filtered(): seq<DemoUser>
      reads this
    {
      FilteredUsers(Filters())
    }

    /** `paginatedUsers` */
    function Visible(): seq<DemoUser>
      reads this
    {
      VisibleSlice(Filtered(), page, rowsPerPage)
    }

    function FooterLabel(): RangeLabel
      reads this
    {
      Label(|Filtered()|, page, rowsPerPage)
    }

    /** Rows per page is one of the offered options, and the page never lies past the list. */
    ghost predicate Valid()
      reads this
    {
      rowsPerPage in RowsOptions && PageInRange(page, rowsPerPage, |Filtered()|)
    }

    constructor()
      ensures Valid()
      ensures rowsPerPage == DefaultRows && page == 0 && Filters() == NoFilters
    {
      rowsPerPage, page := DefaultRows, 0;
      statusFilter, permissionFilter, searchTerm := "All", "All", "";
    }

    /** Typing in the search box. */
    method SetSearchTerm(term: string)
      requires Valid()
      modifies this`searchTerm, this`page
      ensures Valid() && searchTerm == term && page == 0
    {
      searchTerm, page := term, 0;
    }

    /** Choosing a status radio button. */
    method SetStatusFilter(status: string)
      requires Valid() && status in StatusOptions
      modifies this`statusFilter, this`page
      ensures Valid() && statusFilter == status && page == 0
    {
      statusFilter, page := status, 0;
    }

    /** Choosing a permission radio button. */
    method SetPermissionFilter(permission: string)
      requires Valid() && permission in PermissionOptions
      modifies this`permissionFilter, this`page
      ensures Valid() && permissionFilter == permission && page == 0
    {
      permissionFilter, page := permission, 0;
    }

    /** Choosing an option of the rows-per-page select. */
    method SetRowsPerPage(rows: nat)
      requires Valid() && rows in RowsOptions
      modifies this`rowsPerPage, this`page
      ensures Valid() && rowsPerPage == rows && page == 0
    {
      rowsPerPage, page := rows, 0;
    }

    /** The Previous handler, `Math.max(p - 1, 0)`. */
    method ClickPrev()
      requires Valid()
      modifies this`page
      ensures Valid() && page == PrevPage(old(page))
    {
      PrevStaysInRange(page, rowsPerPage, |Filtered()|);
      page := PrevPage(page);
    }

    /** The Next handler, which advances only while `end < total`, disabled or not. */
    method ClickNext()
      requires Valid()
      modifies this`page
      ensures Valid() && page == GuardedNextPage(old(page), rowsPerPage, |Filtered()|)
      ensures page > 0 ==> |Visible()| > 0
    {
      GuardedNextStaysInRange(page, rowsPerPage, |Filtered()|);
      page := GuardedNextPage(page, rowsPerPage, |Filtered()|);
      if page > 0 {
        PageInRangeNotEmpty(Filtered(), page, rowsPerPage);
      }
    }
  }
}
