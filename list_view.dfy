/**
 * The view-model shared by the two user lists: order-preserving filtering,
 * the `Array.prototype.slice` window of one page, the "a-b of n" label, the
 * Previous/Next rules, and the small toggles (row selection, one choice per
 * bulk-action menu, one expanded row).
 */
module ListView {
  import opened Wrappers

  /** The three inputs of the list filter. */
  datatype FilterState = FilterState(search: string, status: string, permission: string)

  /** Filters in their initial state: empty search, "All", "All". */
  const NoFilters := FilterState("", "All", "All")

  /** The rows-per-page choices offered by both lists, and the initial one. */
  const RowsOptions: seq<nat> := [10, 25, 50, 75, 100]
  const DefaultRows: nat := 25

  lemma DefaultRowsOffered()
    ensures DefaultRows in RowsOptions
  {
  }

  // ---------------------------------------------------------------------------
  // Filtering

  /** `a` is `b` with some elements dropped, the rest kept in order. */
  ghost predicate IsSubsequence<T>(a: seq<T>, b: seq<T>)
    decreases |b|
  {
    a == [] || (b != [] && ((a[0] == b[0] && IsSubsequence(a[1..], b[1..])) || IsSubsequence(a, b[1..])))
  }

  /** `s.filter(keep)`. */
  function Filter<T(==,!new)>(s: seq<T>, keep: T -> bool): (r: seq<T>)
    ensures IsSubsequence(r, s)
    ensures forall x :: x in r <==> x in s && keep(x)
    ensures (forall i :: 0 <= i < |s| ==> keep(s[i])) ==> r == s
    ensures NoDuplicates(s) ==> NoDuplicates(r)
    decreases |s|
  {
    if s == [] then []
    else
      var rest := Filter(s[1..], keep);
      assert forall x :: x in s[1..] ==> x in s;
      if keep(s[0]) then
        assert ([s[0]] + rest)[1..] == rest;
        [s[0]] + rest
      else
        rest
  }

  /** The recursion of `Filter` on its own, without the properties it is proved to have. */
  function FilterSteps<T>(s: seq<T>, keep: T -> bool): seq<T>
    decreases |s|
  {
    if s == [] then [] else if keep(s[0]) then [s[0]] + FilterSteps(s[1..], keep) else FilterSteps(s[1..], keep)
  }

  lemma {:induction false} FilterIsSteps<T(!new)>(s: seq<T>, keep: T -> bool)
    ensures Filter(s, keep) == FilterSteps(s, keep)
    decreases |s|
  {
    if s != [] {
      FilterIsSteps(s[1..], keep);
    }
  }

  lemma {:induction false} FilterStepsConcat<T>(a: seq<T>, b: seq<T>, keep: T -> bool)
    ensures FilterSteps(a + b, keep) == FilterSteps(a, keep) + FilterSteps(b, keep)
    decreases |a|
  {
    if a != [] {
      assert (a + b)[0] == a[0] && (a + b)[1..] == a[1..] + b;
      FilterStepsConcat(a[1..], b, keep);
    } else {
      assert a + b == b;
    }
  }

  /** Filtering distributes over concatenation, so it keeps the input order. */
  lemma FilterConcat<T(!new)>(a: seq<T>, b: seq<T>, keep: T -> bool)
    ensures Filter(a + b, keep) == Filter(a, keep) + Filter(b, keep)
  {
    FilterIsSteps(a + b, keep);
    FilterIsSteps(a, keep);
    FilterIsSteps(b, keep);
    FilterStepsConcat(a, b, keep);
  }

  predicate NoDuplicates<T(==)>(s: seq<T>) {
    forall i, j :: 0 <= i < j < |s| ==> s[i] != s[j]
  }

  // ---------------------------------------------------------------------------
  // Pagination

  function Min(a: int, b: int): int { if a <= b then a else b }

  /** `start = page * rowsPerPage` */
  function PageStart(page: nat, rows: nat): nat { page * rows }

  /** `end = start + rowsPerPage` */
  function PageEnd(page: nat, rows: nat): nat { page * rows + rows }

  /** `s.slice(start, end)` for non-negative bounds: both are clamped to the length. */
  function Slice<T>(s: seq<T>, start: nat, end: nat): (r: seq<T>)
    ensures |r| == if Min(end, |s|) > Min(start, |s|) then Min(end, |s|) - Min(start, |s|) else 0
    ensures forall k :: 0 <= k < |r| ==> start + k < |s| && r[k] == s[start + k]
  {
    if start < |s| && start < end then s[start..Min(end, |s|)] else []
  }

  /** The rows shown on page `page` of `filtered`. */
  function VisibleSlice<T>(filtered: seq<T>, page: nat, rows: nat): (r: seq<T>)
    ensures |r| <= rows
    ensures PageStart(page, rows) < |filtered| ==>
              |r| == Min(PageEnd(page, rows), |filtered|) - PageStart(page, rows)
    ensures PageStart(page, rows) >= |filtered| ==> r == []
    ensures forall k :: 0 <= k < |r| ==> r[k] == filtered[PageStart(page, rows) + k]
  {
    Slice(filtered, PageStart(page, rows), PageEnd(page, rows))
  }

  /** The footer text `{start + 1}-{Math.min(end, total)} of {total}`. */
  datatype RangeLabel = RangeLabel(first: nat, last: nat, total: nat)

  /**
   * The label never names a row past the end of the list; on a page starting
   * inside the list it names a non-empty range, and otherwise (an empty list,
   * or a page past the end) the first number exceeds the last.
   */
  function Label(total: nat, page: nat, rows: nat): (l: RangeLabel)
    ensures l.total == total && l.last <= total
    ensures rows > 0 && PageStart(page, rows) < total ==> 1 <= l.first <= l.last
    ensures PageStart(page, rows) >= total ==> l.first > l.last
  {
    RangeLabel(PageStart(page, rows) + 1, Min(PageEnd(page, rows), total), total)
  }

  /** On a page that starts inside the list, the label names exactly the visible rows, by their 1-based positions. */
  lemma LabelCountsVisibleRows<T>(filtered: seq<T>, page: nat, rows: nat)
    requires rows > 0 && PageStart(page, rows) < |filtered|
    ensures var l := Label(|filtered|, page, rows);
            l.total == |filtered| && l.first <= l.last && l.last - l.first + 1 == |VisibleSlice(filtered, page, rows)|
    ensures var l := Label(|filtered|, page, rows);
            1 <= l.first && l.last <= |filtered| && VisibleSlice(filtered, page, rows) == filtered[l.first - 1..l.last]
  {
  }

  /** An empty list shows nothing, and its first page is labelled "1-0 of 0". */
  lemma EmptyListLabel<T>(filtered: seq<T>, rows: nat)
    requires filtered == []
    ensures VisibleSlice(filtered, 0, rows) == []
    ensures Label(|filtered|, 0, rows) == RangeLabel(1, 0, 0)
  {
  }

  /** Previous is disabled exactly where its handler would not move: on the first page. */
  predicate PrevDisabled(page: nat): (r: bool)
    ensures r <==> PrevPage(page) == page
  {
    page == 0
  }

  /** Next is enabled exactly when the following page starts inside the list. */
  predicate NextDisabled(total: nat, page: nat, rows: nat): (r: bool)
    ensures !r <==> PageStart(page + 1, rows) < total
  {
    assert PageStart(page + 1, rows) == PageEnd(page, rows);
    PageEnd(page, rows) >= total
  }

  /** The Previous handler, `Math.max(p - 1, 0)`. */
  function PrevPage(page: nat): (r: nat)
    ensures page == 0 ==> r == 0
    ensures page > 0 ==> r + 1 == page
  {
    if page >= 1 then page - 1 else 0
  }

  /** The desktop Next handler, which advances only while `end < total`. */
  function GuardedNextPage(page: nat, rows: nat, total: nat): (r: nat)
    ensures r == page || r == page + 1
    ensures r == page + 1 <==> !NextDisabled(total, page, rows)
  {
    if PageEnd(page, rows) < total then page + 1 else page
  }

  /** The page either is the first one or starts inside the list. */
  predicate PageInRange(page: nat, rows: nat, total: nat) {
    page == 0 || PageStart(page, rows) < total
  }

  /** A page in range that is not the first shows at least one row. */
  lemma PageInRangeNotEmpty<T>(filtered: seq<T>, page: nat, rows: nat)
    requires rows > 0 && PageInRange(page, rows, |filtered|) && |filtered| > 0
    ensures |VisibleSlice(filtered, page, rows)| > 0
  {
  }

  /** Moving to the next page while Next is enabled lands on a non-empty page. */
  lemma NextLandsOnNonEmptyPage<T>(filtered: seq<T>, page: nat, rows: nat)
    requires rows > 0 && !NextDisabled(|filtered|, page, rows)
    ensures PageInRange(page + 1, rows, |filtered|)
    ensures |VisibleSlice(filtered, page + 1, rows)| > 0
  {
    assert PageStart(page + 1, rows) == PageEnd(page, rows);
  }

  /** Previous keeps the page in range. */
  lemma PrevStaysInRange(page: nat, rows: nat, total: nat)
    requires PageInRange(page, rows, total)
    ensures PageInRange(PrevPage(page), rows, total)
  {
    if page > 0 {
      assert PageStart(page - 1, rows) + rows == PageStart(page, rows);
    }
  }

  /** The guarded Next handler keeps the page in range, even when invoked while disabled. */
  lemma GuardedNextStaysInRange(page: nat, rows: nat, total: nat)
    requires PageInRange(page, rows, total)
    ensures PageInRange(GuardedNextPage(page, rows, total), rows, total)
  {
    assert PageStart(page + 1, rows) == PageEnd(page, rows);
  }

  // ---------------------------------------------------------------------------
  // Toggles

  /** `toggleSelect`: drop every copy of `id` if it is selected, append it otherwise. */
  function ToggleSelect(selected: seq<string>, id: string): (r: seq<string>)
    ensures id in r <==> id !in selected
    ensures forall x :: x != id ==> (x in r <==> x in selected)
    ensures NoDuplicates(selected) ==> NoDuplicates(r)
    ensures id !in selected ==> r == selected + [id]
  {
    if id in selected then Filter(selected, (uid: string) => uid != id) else selected + [id]
  }

  /** Toggling an id twice restores the selected set, and the exact list when the id was not selected. */
  lemma ToggleSelectTwice(selected: seq<string>, id: string)
    ensures forall x :: x in ToggleSelect(ToggleSelect(selected, id), id) <==> x in selected
    ensures id !in selected ==> ToggleSelect(ToggleSelect(selected, id), id) == selected
  {
    if id !in selected {
      var keep := (uid: string) => uid != id;
      FilterConcat(selected, [id], keep);
      assert Filter([id], keep) == [];
    }
  }

  /** `toggleRole(menu, item)`: choose `item` in `menu`, or clear the menu if `item` was its choice. */
  function ToggleRole(roles: map<string, Option<string>>, menu: string, item: string): (r: map<string, Option<string>>)
    ensures r.Keys == roles.Keys + {menu}
    ensures r[menu] == Some(item) <==> !(menu in roles && roles[menu] == Some(item))
    ensures r[menu] == None <==> (menu in roles && roles[menu] == Some(item))
    ensures forall m :: m in roles && m != menu ==> r[m] == roles[m]
  {
    roles[menu := if menu in roles && roles[menu] == Some(item) then None else Some(item)]
  }

  /**
   * Choosing the same item twice restores the menu when it was empty or already
   * held that item, and clears it when it held another item.
   */
  lemma ToggleRoleTwice(roles: map<string, Option<string>>, menu: string, item: string)
    requires menu in roles
    ensures var twice := ToggleRole(ToggleRole(roles, menu, item), menu, item);
            (roles[menu] == None || roles[menu] == Some(item) ==> twice == roles)
            && (roles[menu] != None && roles[menu] != Some(item) ==> twice[menu] == None)
  {
  }

  /** The expand button of row `id`: collapse it if it is the expanded row, expand it otherwise. */
  function ToggleExpanded(expanded: Option<string>, id: string): (r: Option<string>)
    ensures forall x :: r == Some(x) <==> x == id && expanded != Some(id)
  {
    if expanded == Some(id) then None else Some(id)
  }
}
