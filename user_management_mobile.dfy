/**
 * The mobile user list: the records of the fetched payload filtered by search,
 * status and permission, one page of them, row selection, the bulk-action menu
 * choices and the single expanded row.
 */
module UserManagementMobile {
  import opened Wrappers
  import opened Text
  import opened ListView

  /**
   * A fetched user record. Every field but the id may be missing; an absent
   * `name` object and absent `name.first` both read as `None` here. Country and
   * registration date are only displayed and are not part of the model.
   */
  datatype User = User(
    id: string,
    first: Option<string>,
    last: Option<string>,
    email: Option<string>,
    status: Option<string>,
    permission: Option<string>)

  /** The response body: `data.data` is either an array of records or something else. */
  datatype Payload = UserArray(users: seq<User>) | NotAnArray

  /** `${first || ""} ${last || ""}`, lower-cased. */
  function SearchName(u: User): string {
    Lower(u.first.GetOr("") + " " + u.last.GetOr(""))
  }

  predicate NameMatch(u: User, term: string) {
    Contains(SearchName(u), Lower(term))
  }

  /** An absent email makes `user?.email?.toLowerCase().includes(..)` undefined, which is falsy. */
  predicate EmailMatch(u: User, term: string) {
    u.email.Some? && Contains(Lower(u.email.value), Lower(term))
  }

  /** Strict equality with the raw field; an absent field never equals a filter value. */
  predicate StatusMatch(u: User, filter: string) {
    filter == "All" || u.status == Some(filter)
  }

  predicate PermissionMatch(u: User, filter: string) {
    filter == "All" || u.permission == Some(filter)
  }

  /**
   * A record is listed when the search matches its name or email and both
   * filters pass; with an empty search only the filters decide.
   */
  predicate Matches(u: User, f: FilterState): (r: bool)
    ensures r ==> StatusMatch(u, f.status) && PermissionMatch(u, f.permission)
    ensures f.search == "" ==> (r <==> StatusMatch(u, f.status) && PermissionMatch(u, f.permission))
  {
    ContainsEmpty(SearchName(u));
    (NameMatch(u, f.search) || EmailMatch(u, f.search))
    && StatusMatch(u, f.status) && PermissionMatch(u, f.permission)
  }

  /** `filteredUsers`: the matching records of the payload, in payload order. */
  function FilteredUsers(p: Payload, f: FilterState): (r: seq<User>)
    ensures p.NotAnArray? ==> r == []
    ensures p.UserArray? ==> IsSubsequence(r, p.users)
    ensures forall u :: u in r <==> p.UserArray? && u in p.users && Matches(u, f)
  {
    match p
    case NotAnArray => []
    case UserArray(users) => Filter(users, (u: User) => Matches(u, f))
  }

  /** Every result passes the status check and the permission check. */
  lemma FilteredPassFilters(p: Payload, f: FilterState, u: User)
    requires u in FilteredUsers(p, f)
    ensures f.status == "All" || u.status == Some(f.status)
    ensures f.permission == "All" || u.permission == Some(f.permission)
  {
  }

  /**
   * The search term matches exactly when its lower-cased form occurs in the
   * lower-cased "first last" or in the lower-cased email.
   */
  lemma SearchMatchIff(u: User, term: string)
    ensures (NameMatch(u, term) || EmailMatch(u, term)) <==>
            ((exists i :: OccursAt(SearchName(u), Lower(term), i))
             || (u.email.Some? && exists i :: OccursAt(Lower(u.email.value), Lower(term), i)))
  {
  }

  /** The search is case-insensitive: a term and its lower-cased form select the same records. */
  lemma SearchIgnoresCase(u: User, term: string)
    ensures NameMatch(u, term) == NameMatch(u, Lower(term))
    ensures EmailMatch(u, term) == EmailMatch(u, Lower(term))
  {
    LowerIdempotent(term);
  }

  /** With no filters and an empty search every record of an array payload is listed. */
  lemma NoFiltersListsEveryone(users: seq<User>)
    ensures FilteredUsers(UserArray(users), NoFilters) == users
  {
  }

  /** `user?.status || "Active"`: what the expanded row shows as the status. */
  function DisplayedStatus(u: User): (r: string)
    ensures r != ""
    ensures u.status.None? ==> r == "Active"
    ensures u.status.Some? && u.status.value != "" ==> r == u.status.value
  {
    if u.status.None? || u.status.value == "" then "Active" else u.status.value
  }

  /** `user?.permission || "User"`: what the expanded row shows as the permission. */
  function DisplayedPermission(u: User): (r: string)
    ensures r != ""
    ensures u.permission.None? ==> r == "User"
    ensures u.permission.Some? && u.permission.value != "" ==> r == u.permission.value
  {
    if u.permission.None? || u.permission.value == "" then "User" else u.permission.value
  }

  /**
   * A record without a status is shown as "Active" but is dropped by the
   * "Active" filter; likewise a record without a permission is shown as "User"
   * and dropped by any permission filter other than "All".
   */
  lemma AbsentFieldsNeverMatchFilters(p: Payload, f: FilterState, u: User)
    requires (u.status == None && f.status != "All") || (u.permission == None && f.permission != "All")
    ensures u !in FilteredUsers(p, f)
    ensures u.status == None ==> DisplayedStatus(u) == "Active"
    ensures u.permission == None ==> DisplayedPermission(u) == "User"
  {
  }

  /** The status choices of the filter panel. */
  const StatusOptions: seq<string> := ["All", "Active", "Inactive", "Pending"]

  /** The permission choices of the filter panel; they are department names, not roles. */
  const PermissionOptions: seq<string> := ["All", "Engineering", "Marketing"]

  /** The roles a record's permission takes. */
  const Roles: seq<string> := ["User", "Admin", "Super Admin", "Uncategorised"]

  /** When every record carries one of the roles (or none), both non-"All" permission choices list nothing. */
  lemma PermissionChoicesMatchNoRole(users: seq<User>, f: FilterState)
    requires f.permission in PermissionOptions && f.permission != "All"
    requires forall u :: u in users ==> u.permission == None || u.permission.value in Roles
    ensures FilteredUsers(UserArray(users), f) == []
  {
    var r := FilteredUsers(UserArray(users), f);
    forall u | u in users ensures !PermissionMatch(u, f.permission) {
    }
    assert forall i :: 0 <= i < |r| ==> r[i] in r;
  }

  /** The bulk-action menus and, per menu, the items it offers. */
  const AssignPermission := "Assign Permission"
  const ChangeStatus := "Change Status"
  const DeleteAll := "Delete All"
  const ActionMenus: seq<string> := [AssignPermission, ChangeStatus, DeleteAll]

  function MenuItems(menu: string): seq<string> {
    if menu == AssignPermission then Roles else ["Active", "Inactive"]
  }

  /** `selectedRoles` at mount: no choice in any menu. */
  const InitialRoles: map<string, Option<string>> :=
    map[AssignPermission := None, ChangeStatus := None, DeleteAll := None]

  /** The hook state of the page, on top of the fetched payload. */
  class MobileListView {
    var payload: Payload
    var searchTerm: string
    var statusFilter: string
    var permissionFilter: string
    var rowsPerPage: nat
    var page: nat
    var selectedUsers: seq<string>
    var selectedRoles: map<string, Option<string>>
    var expandedUserId: Option<string>

    ghost predicate Valid()
      reads this
    {
      && rowsPerPage in RowsOptions
      && NoDuplicates(selectedUsers)
      && selectedRoles.Keys == InitialRoles.Keys
    }

    function Filters(): FilterState
      reads this
    {
      FilterState(searchTerm, statusFilter, permissionFilter)
    }

    function Filtered(): seq<User>
      reads this
    {
      FilteredUsers(payload, Filters())
    }

    /** `paginatedUsers` */
    function Visible(): seq<User>
      reads this
    {
      VisibleSlice(Filtered(), page, rowsPerPage)
    }

    function FooterLabel(): RangeLabel
      reads this
    {
      Label(|Filtered()|, page, rowsPerPage)
    }

    predicate PageValid()
      reads this
    {
      PageInRange(page, rowsPerPage, |Filtered()|)
    }

    constructor(fetched: Payload)
      ensures Valid()
      ensures payload == fetched && Filters() == NoFilters
      ensures rowsPerPage == DefaultRows && page == 0
      ensures selectedUsers == [] && selectedRoles == InitialRoles && expandedUserId == None
    {
      payload := fetched;
      searchTerm, statusFilter, permissionFilter := "", "All", "All";
      rowsPerPage, page := DefaultRows, 0;
      selectedUsers, selectedRoles, expandedUserId := [], InitialRoles, None;
    }

    /** The query delivers (or re-delivers) its data; nothing else is reset. */
    method ReceivePayload(fetched: Payload)
      requires Valid()
      modifies this`payload
      ensures Valid() && payload == fetched
    {
      payload := fetched;
    }

    /** Typing in the search box. */
    method SetSearchTerm(term: string)
      requires Valid()
      modifies this`searchTerm, this`page
      ensures Valid() && searchTerm == term && page == 0 && PageValid()
    {
      searchTerm, page := term, 0;
    }

    /** Choosing a status radio button. */
    method SetStatusFilter(status: string)
      requires Valid() && status in StatusOptions
      modifies this`statusFilter, this`page
      ensures Valid() && statusFilter == status && page == 0 && PageValid()
    {
      statusFilter, page := status, 0;
    }

    /** Choosing a permission radio button. */
    method SetPermissionFilter(permission: string)
      requires Valid() && permission in PermissionOptions
      modifies this`permissionFilter, this`page
      ensures Valid() && permissionFilter == permission && page == 0 && PageValid()
    {
      permissionFilter, page := permission, 0;
    }

    /** Choosing an entry of the rows-per-page dropdown. */
    method SetRowsPerPage(rows: nat)
      requires Valid() && rows in RowsOptions
      modifies this`rowsPerPage, this`page
      ensures Valid() && rowsPerPage == rows && page == 0 && PageValid()
    {
      rowsPerPage, page := rows, 0;
    }

    /** The Previous button: disabled on page 0, and its handler never goes below 0. */
    method ClickPrev()
      requires Valid()
      modifies this`page
      ensures Valid()
      ensures page == if PrevDisabled(old(page)) then old(page) else PrevPage(old(page))
      ensures old(PageValid()) ==> PageValid()
    {
      if !PrevDisabled(page) {
        if PageValid() {
          PrevStaysInRange(page, rowsPerPage, |Filtered()|);
        }
        page := PrevPage(page);
      }
    }

    /** The Next button: its handler is `p + 1`, and the button is disabled once `end >= total`. */
    method ClickNext()
      requires Valid()
      modifies this`page
      ensures Valid()
      ensures page == if old(NextDisabled(|Filtered()|, page, rowsPerPage)) then old(page) else old(page) + 1
      ensures page != old(page) ==> |Visible()| > 0
      ensures old(PageValid()) ==> PageValid()
    {
      if !NextDisabled(|Filtered()|, page, rowsPerPage) {
        NextLandsOnNonEmptyPage(Filtered(), page, rowsPerPage);
        page := page + 1;
      }
    }

    /** A row's checkbox. */
    method ToggleSelect(id: string)
      requires Valid()
      modifies this`selectedUsers
      ensures Valid() && selectedUsers == ListView.ToggleSelect(old(selectedUsers), id)
    {
      selectedUsers := ListView.ToggleSelect(selectedUsers, id);
    }

    /** The "Clear Selected" button. */
    method ClearSelected()
      requires Valid()
      modifies this`selectedUsers
      ensures Valid() && selectedUsers == []
    {
      selectedUsers := [];
    }

    /** Clicking `item` in the submenu of `menu`. */
    method ToggleRole(menu: string, item: string)
      requires Valid() && menu in ActionMenus && item in MenuItems(menu)
      modifies this`selectedRoles
      ensures Valid() && selectedRoles == ListView.ToggleRole(old(selectedRoles), menu, item)
    {
      selectedRoles := ListView.ToggleRole(selectedRoles, menu, item);
    }

    /** A row's expand arrow. */
    method ToggleExpanded(id: string)
      requires Valid()
      modifies this`expandedUserId
      ensures Valid() && expandedUserId == ListView.ToggleExpanded(old(expandedUserId), id)
    {
      expandedUserId := ListView.ToggleExpanded(expandedUserId, id);
    }
  }
}
