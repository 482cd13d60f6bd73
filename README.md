# TeeConnect admin console: a verified view-model

TeeConnect is a small React admin console. A fixed credential pair logs the
administrator in by setting a flag in `localStorage`. From the next full
page load on, the route table opens the dashboard and the user-management
pages. The user list has a
mobile copy over fetched records and a desktop copy over fifty generated demo
users. Both copies filter the list, show it one page at a time, and offer
row selection and bulk-action menus. The add-user pages validate five
required fields and show a summary. The edit-user pages track whether the
working copy differs from the original. The reset-password page rates the
new password.

This project models the logic of those pages as one shared view-model in
Dafny and proves properties of it:

- `Text`: the string operations the pages use. These are JavaScript
  `toLowerCase` (ASCII letters), `includes`, `trim` (ECMAScript whitespace)
  and number-to-decimal.
- `ListView`: pieces shared by the two lists:
  - order-preserving filtering;
  - the `Array.prototype.slice` window of a page and the "a–b of n" label;
  - the Previous/Next rules;
  - the selection, per-menu choice and expanded-row toggles.
- `UserManagementMobile` and `UserManagementDesktop`: the two list pages.
  Each has its filter predicate and a class holding its hook state. In the
  class, every filter, search or rows-per-page handler resets the page to 0.
- `UserForm`: the shared add-user form, which includes:
  - the fields;
  - the error flags;
  - the loop that builds the error map on submit;
  - the invariant "a flagged field is empty";
  - the success summary.
- `AddUserDesktop` and `AddUserMobile`: the two add-user state machines.
- `EditUser`: the edited record with optional keys and the field-wise dirty
  test. `EditUserDesktop` and `EditUserMobile` hold the two edit pages.
- `ResetPassword`: `checkStrength` and the submit handler.
- `Storage`, `Login`, `Dashboard`, `AppRoutes` and `ProtectedRoute`: the
  session flag, login, logout, the route decision and the guard component.

Modelling choices:

- Hook state becomes class fields. Each handler is a method whose `modifies`
  clause names exactly the state it sets.
- Each `setTimeout` becomes a pending-timer counter and a `Tick` method.
- Navigation becomes a returned path.
- `alert` texts become returned values.
- The fetched payload and the record passed by the router are inputs.

Behaviour the model records as the code has it:

- An empty list is labelled "1–0 of 0".
- On mobile, a record without a status is shown as "Active" but fails the
  "Active" filter.
- The mobile permission filter offers department names, which no role
  matches.
- The mobile Next handler is `p + 1` and relies on the `disabled` attribute.
  The desktop handler checks `end < total` itself.
- "Strong" is never returned by the strength check.
- Toggling the status marks the record dirty even when a second toggle
  restores it.
- A logged-in user who opens `/users/add` or `/users/edit` gets the
  not-found page, because those paths have no route.
- `App` reads the session flag only while it renders, and the login and
  logout handlers navigate without rendering `App` again. The route table in
  effect is therefore the one built at the last full page load. A login from
  a page loaded while logged out is sent from /dashboard back to /login;
  after a logout, /dashboard still renders until the page is loaded again.

## Model

| member | source | states |
|---|---|---|
| Text.Lower | src/Pages/UserManagementMobile.tsx:86-88 | lower-casing keeps the length and maps each character through the ASCII case map |
| Text.LowerIdempotent | src/Pages/UserManagementMobile.tsx:86-88 | lower-casing an already lower-cased term changes nothing |
| Text.Contains | src/Pages/UserManagementMobile.tsx:87-88 | `includes` holds exactly when the needle occurs at some index of the haystack |
| Text.OccurrenceShift | src/Pages/UserManagementMobile.tsx:87-88 | when the needle does not start the haystack, its occurrences are exactly those in the rest, shifted by one |
| Text.ContainsEmpty | src/Pages/UserManagementMobile.tsx:87 | the empty search term is contained in every string |
| Text.Trim | src/Pages/desktop/AddUserDesktop.tsx:51 | `trim` returns a block of the input with only whitespace removed around it and no whitespace at either end |
| Text.TrimNoop | src/Pages/desktop/AddUserDesktop.tsx:51 | a string with no whitespace at either end is left unchanged by `trim` |
| Text.TrimAllWhitespace | src/Pages/desktop/AddUserDesktop.tsx:51 | a string made only of whitespace trims to the empty string |
| Text.TrimEmptyIff | src/Pages/desktop/AddUserDesktop.tsx:51 | `trim` yields the empty string exactly when every character is whitespace |
| Text.NatToString | src/Pages/UserManagementDesktop.tsx:29-30 | the rendering is a non-empty run of decimal digits whose value is the number, with no leading zero ("0" for zero) |
| ListView.DefaultRowsOffered | src/Pages/UserManagementDesktop.tsx:38 | the initial 25 rows per page is one of the offered options |
| ListView.Filter | src/Pages/UserManagementMobile.tsx:85-93 | the result is an order-preserving subsequence holding exactly the input elements that pass the predicate; a list whose elements all pass is returned whole; a duplicate-free input gives a duplicate-free result |
| ListView.FilterConcat | src/Pages/UserManagementMobile.tsx:85-93 | filtering distributes over concatenation |
| ListView.Slice | src/Pages/UserManagementMobile.tsx:121 | `slice(start, end)` clamps both bounds to the length: each result element is the input element at `start + k` |
| ListView.VisibleSlice | src/Pages/UserManagementMobile.tsx:119-121 | the page shows at most `rows` rows, namely `filtered[page*rows ..]` up to `min(page*rows+rows, total)`, and nothing once the start is past the end |
| ListView.Label | src/Pages/UserManagementMobile.tsx:467 | the label's total is the filtered count and its last number never exceeds it; a page starting inside the list names a range from at least 1, and a page past the end (or any page of an empty list) has first above last |
| ListView.LabelCountsVisibleRows | src/Pages/UserManagementMobile.tsx:467 | on a page starting inside the list the label names exactly the visible rows: they are the filtered rows at positions first through last (1-based), their count is last minus first plus one, and the total is the filtered count |
| ListView.EmptyListLabel | src/Pages/UserManagementMobile.tsx:467 | an empty list shows no rows under the label "1–0 of 0" |
| ListView.PrevDisabled | src/Pages/UserManagementMobile.tsx:473 | Previous is disabled exactly where its handler would keep the page |
| ListView.NextDisabled | src/Pages/UserManagementMobile.tsx:480 | Next is enabled exactly when the following page starts inside the list |
| ListView.PrevPage | src/Pages/UserManagementMobile.tsx:474 | `Math.max(p - 1, 0)` stays at 0 on the first page and steps back by one otherwise |
| ListView.GuardedNextPage | src/Pages/UserManagementDesktop.tsx:296-300 | the desktop handler advances by exactly one precisely when Next is enabled (`end < total`), else keeps the page |
| ListView.PageInRangeNotEmpty | src/Pages/UserManagementDesktop.tsx:295-300 | a page in range of a non-empty list shows at least one row |
| ListView.NextLandsOnNonEmptyPage | src/Pages/UserManagementMobile.tsx:480-481 | when Next is enabled the next page starts inside the list and shows at least one row |
| ListView.PrevStaysInRange | src/Pages/UserManagementDesktop.tsx:288-289 | Previous keeps the page in range |
| ListView.GuardedNextStaysInRange | src/Pages/UserManagementDesktop.tsx:296-300 | the guarded Next keeps the page in range even when invoked while disabled |
| ListView.ToggleSelect | src/Pages/UserManagementMobile.tsx:125-129 | the id's membership flips, every other id keeps its membership, an absent id is appended at the end, and a duplicate-free list stays duplicate-free |
| ListView.ToggleSelectTwice | src/Pages/UserManagementMobile.tsx:125-129 | toggling an id twice restores the set of selected ids, and the exact list when the id was not selected |
| ListView.ToggleRole | src/Pages/UserManagementMobile.tsx:57-62 | the menu's choice becomes `item` unless it already was, in which case it becomes null; every other menu is unchanged |
| ListView.ToggleRoleTwice | src/Pages/UserManagementMobile.tsx:57-62 | choosing the same item twice restores a menu that was empty or held that item |
| ListView.ToggleExpanded | src/Pages/UserManagementMobile.tsx:353 | at most one row is expanded: the new value is `id` exactly when `id` was not the expanded row |
| UserManagementMobile.Matches | src/Pages/UserManagementMobile.tsx:85-93 | a matching record passes both filters; with an empty search the two filters alone decide |
| UserManagementMobile.DisplayedStatus | src/Pages/UserManagementMobile.tsx:427 | the shown status is never empty: "Active" for a missing status, the stored one when it is non-empty |
| UserManagementMobile.DisplayedPermission | src/Pages/UserManagementMobile.tsx:421 | the shown permission is never empty: "User" for a missing one, the stored one when it is non-empty |
| UserManagementMobile.FilteredUsers | src/Pages/UserManagementMobile.tsx:83-94 | a payload that is not an array gives the empty list; otherwise the result is an order-preserving subsequence of the records holding exactly the matching ones |
| UserManagementMobile.FilteredPassFilters | src/Pages/UserManagementMobile.tsx:89-92 | every listed record has each filter "All" or its field strictly equal to it |
| UserManagementMobile.SearchMatchIff | src/Pages/UserManagementMobile.tsx:86-88 | the search matches exactly when the lower-cased term occurs in the lower-cased "first last" (missing parts as "") or in the lower-cased email, when present |
| UserManagementMobile.SearchIgnoresCase | src/Pages/UserManagementMobile.tsx:86-88 | a term and its lower-cased form match the same records |
| UserManagementMobile.NoFiltersListsEveryone | src/Pages/UserManagementMobile.tsx:83-94 | with no filters and an empty term every record is listed, in order |
| UserManagementMobile.AbsentFieldsNeverMatchFilters | src/Pages/UserManagementMobile.tsx:89-92 | a record lacking status (or permission) is dropped by any non-"All" status (or permission) filter, although it is displayed as "Active" (or "User") |
| UserManagementMobile.PermissionChoicesMatchNoRole | src/Pages/UserManagementMobile.tsx:230-239 | the "Engineering" and "Marketing" permission choices list nothing when every record's permission is a role or absent |
| UserManagementMobile.MobileListView.constructor | src/Pages/UserManagementMobile.tsx:40-55 | initial state: no filters, 25 rows, page 0, nothing selected, every menu null, nothing expanded |
| UserManagementMobile.MobileListView.ReceivePayload | src/Pages/UserManagementMobile.tsx:73-76 | a delivered payload replaces the data and nothing else |
| UserManagementMobile.MobileListView.SetSearchTerm | src/Pages/UserManagementMobile.tsx:196-199 | the term is stored and the page returns to 0 |
| UserManagementMobile.MobileListView.SetStatusFilter | src/Pages/UserManagementMobile.tsx:221-222 | the status filter is stored and the page returns to 0 |
| UserManagementMobile.MobileListView.SetPermissionFilter | src/Pages/UserManagementMobile.tsx:238-239 | the permission filter is stored and the page returns to 0 |
| UserManagementMobile.MobileListView.SetRowsPerPage | src/Pages/UserManagementMobile.tsx:454-455 | the rows-per-page choice is stored, stays among the options, and the page returns to 0 |
| UserManagementMobile.MobileListView.ClickPrev | src/Pages/UserManagementMobile.tsx:473-474 | disabled on page 0; otherwise the page steps back by one; a page in range stays in range |
| UserManagementMobile.MobileListView.ClickNext | src/Pages/UserManagementMobile.tsx:480-481 | disabled once `end >= total`; otherwise the page advances by one onto a non-empty page |
| UserManagementMobile.MobileListView.ToggleSelect | src/Pages/UserManagementMobile.tsx:125-129 | the selection becomes the toggled list and stays duplicate-free |
| UserManagementMobile.MobileListView.ClearSelected | src/Pages/UserManagementMobile.tsx:131 | the selection becomes empty |
| UserManagementMobile.MobileListView.ToggleRole | src/Pages/UserManagementMobile.tsx:57-62 | the menu map becomes the toggled map and keeps its three menus |
| UserManagementMobile.MobileListView.ToggleExpanded | src/Pages/UserManagementMobile.tsx:352-354 | the expanded row becomes the toggled value |
| UserManagementDesktop.DemoUsers | src/Pages/UserManagementDesktop.tsx:27-35 | fifty users, the one at index i generated from i |
| UserManagementDesktop.DemoUsersShape | src/Pages/UserManagementDesktop.tsx:27-35 | ids run 1 to 50, statuses cycle Active/Inactive/Pending, and the permission is "Super Admin" exactly at indices divisible by 4, "User" elsewhere |
| UserManagementDesktop.SuperAdminsInPrefix | src/Pages/UserManagementDesktop.tsx:34 | the first n users hold (n+3)/4 Super Admins and the rest Users |
| UserManagementDesktop.SuperAdminCount | src/Pages/UserManagementDesktop.tsx:27-35 | the demo data holds 13 Super Admins and 37 Users |
| UserManagementDesktop.Matches | src/Pages/UserManagementDesktop.tsx:67-75 | a matching demo user passes both filters; with an empty search the two filters alone decide |
| UserManagementDesktop.FilteredUsers | src/Pages/UserManagementDesktop.tsx:67-75 | an order-preserving subsequence of the demo users holding exactly those passing status, permission and case-insensitive name-or-email search |
| UserManagementDesktop.NoFiltersListsEveryone | src/Pages/UserManagementDesktop.tsx:67-75 | with no filters and an empty term all fifty users are listed |
| UserManagementDesktop.FirstPageScenario | src/Pages/UserManagementDesktop.tsx:283-295 | at 25 rows with no filters, page 0 shows ids 1–25 under "1–25 of 50" with Next enabled |
| UserManagementDesktop.SecondPageNavigation | src/Pages/UserManagementDesktop.tsx:294-300 | with no filters at 25 rows, Next on page 0 moves to page 1; there Next is disabled and its handler would keep page 1 |
| UserManagementDesktop.SecondPageScenario | src/Pages/UserManagementDesktop.tsx:283-286 | page 1 at 25 rows shows ids 26–50 under "26–50 of 50" |
| UserManagementDesktop.DesktopListView.constructor | src/Pages/UserManagementDesktop.tsx:38-47 | initial state: 25 rows, page 0, no filters |
| UserManagementDesktop.DesktopListView.SetSearchTerm | src/Pages/UserManagementDesktop.tsx:133-136 | the term is stored and the page returns to 0 |
| UserManagementDesktop.DesktopListView.SetStatusFilter | src/Pages/UserManagementDesktop.tsx:163-164 | the status filter is stored and the page returns to 0 |
| UserManagementDesktop.DesktopListView.SetPermissionFilter | src/Pages/UserManagementDesktop.tsx:185-186 | the permission filter is stored and the page returns to 0 |
| UserManagementDesktop.DesktopListView.SetRowsPerPage | src/Pages/UserManagementDesktop.tsx:271-273 | the rows-per-page choice is stored, stays one of 10/25/50/75/100, and the page returns to 0 |
| UserManagementDesktop.DesktopListView.ClickPrev | src/Pages/UserManagementDesktop.tsx:288-289 | the page becomes `max(p - 1, 0)` and stays in range |
| UserManagementDesktop.DesktopListView.ClickNext | src/Pages/UserManagementDesktop.tsx:295-300 | the page advances only while `end < total`, stays in range, and any page past the first shows rows |
| UserForm.FormData.Set | src/Pages/desktop/AddUserDesktop.tsx:26 | the named field takes the value; every other field is unchanged |
| UserForm.BlankIsEmpty | src/Pages/desktop/AddUserDesktop.tsx:8-16 | every field of the initial form is empty |
| UserForm.MissingRequired | src/Pages/desktop/AddUserDesktop.tsx:33-38 | every entry is a raised flag; every empty required field is flagged, and no other field has an entry; the map keeps "a flagged field is empty" |
| UserForm.ComputeErrors | src/Pages/desktop/AddUserDesktop.tsx:33-38 | the loop builds a map whose keys are exactly the empty required fields, each mapped to true |
| UserForm.SubmitFlagsExactlyEmptyRequired | src/Pages/desktop/AddUserDesktop.tsx:33-38 | a field is flagged by submit exactly when it is required and empty; username and phone never are |
| UserForm.AcceptedIffRequiredFilled | src/Pages/desktop/AddUserDesktop.tsx:40-46 | submit finds no error exactly when all five required fields are filled |
| UserForm.BlankSubmitFlagsFive | src/Pages/desktop/AddUserDesktop.tsx:33-44 | submitting the blank form flags exactly the five required fields, so it is rejected |
| UserForm.ChangeKeepsInvariant | src/Pages/desktop/AddUserDesktop.tsx:26-27 | a change keeps "a flagged field is empty" and leaves every other field's flag as it was |
| UserForm.SubmitEstablishesInvariant | src/Pages/desktop/AddUserDesktop.tsx:33-41 | the flags submit sets satisfy "a flagged field is empty" |
| UserForm.ResetKeepsInvariant | src/Pages/desktop/AddUserDesktop.tsx:284-292 | the blank form satisfies the invariant whatever flags remain |
| UserForm.OrNA | src/Pages/desktop/AddUserDesktop.tsx:260 | the "N/A" fallback is never empty and keeps a non-empty value unchanged |
| UserForm.FullName | src/Pages/desktop/AddUserDesktop.tsx:51 | the trimmed full name is empty exactly when both names are all whitespace |
| UserForm.JoinedBlankIff | src/Pages/desktop/AddUserDesktop.tsx:51 | "first last" is all whitespace exactly when both names are |
| UserForm.SummaryOf | src/Pages/desktop/AddUserDesktop.tsx:258-271 | the summary shows the trimmed full name, the email and the permission, each "N/A" when empty |
| UserForm.SummaryNameOfCleanNames | src/Pages/desktop/AddUserDesktop.tsx:51 | names with no whitespace at their outer ends are shown as "first last" |
| UserForm.SummaryNameOfNoNames | src/Pages/desktop/AddUserDesktop.tsx:51 | two empty names show "N/A" |
| AddUserDesktop.AddUserDesktopForm.constructor | src/Pages/desktop/AddUserDesktop.tsx:8-21 | blank form, no flags, no alert, the form open |
| AddUserDesktop.AddUserDesktopForm.HandleChange | src/Pages/desktop/AddUserDesktop.tsx:23-28 | exactly one value is set and exactly that field's flag cleared; the invariant holds |
| AddUserDesktop.AddUserDesktopForm.ShownSummary | src/Pages/desktop/AddUserDesktop.tsx:258-271 | the three lines are never empty; on the success screen the email and permission are shown as entered; the name is "N/A" exactly when both names are blank, else the trimmed full name |
| AddUserDesktop.AddUserDesktopForm.HandleSubmit | src/Pages/desktop/AddUserDesktop.tsx:30-49 | with an empty required field the flags are replaced by exactly the empty required fields and the alert shows, values and form untouched; otherwise the alert clears, the form hides and the success timer is scheduled |
| AddUserDesktop.AddUserDesktopForm.Tick | src/Pages/desktop/AddUserDesktop.tsx:48 | the scheduled timer shows the success screen |
| AddUserDesktop.AddUserDesktopForm.DismissAlert | src/Pages/desktop/AddUserDesktop.tsx:75 | the alert closes |
| AddUserDesktop.AddUserDesktopForm.StartOver | src/Pages/desktop/AddUserDesktop.tsx:280-316 | "Finish" and "Add More Users" both reset all seven fields, hide success and reopen the form, keeping the flags |
| AddUserDesktop.AddUserDesktopForm.Cancel | src/Pages/desktop/AddUserDesktop.tsx:225 | "Cancel" goes to /users |
| AddUserMobile.AddUserMobileForm.CurrentView | src/Pages/mobile/AddUserMobile.tsx:82-137 | the success view, with the summary, replaces the form exactly while `success` holds |
| AddUserMobile.AddUserMobileForm.constructor | src/Pages/mobile/AddUserMobile.tsx:9-21 | blank form, no flags, no alert, form view |
| AddUserMobile.AddUserMobileForm.HandleChange | src/Pages/mobile/AddUserMobile.tsx:23-28 | exactly one value is set and exactly that field's flag cleared; the invariant holds |
| AddUserMobile.AddUserMobileForm.HandleSubmit | src/Pages/mobile/AddUserMobile.tsx:30-48 | a rejected submit replaces the flags and shows the alert; an accepted one clears the alert and schedules success; the form stays |
| AddUserMobile.AddUserMobileForm.Tick | src/Pages/mobile/AddUserMobile.tsx:47 | a scheduled timer switches to the success view |
| AddUserMobile.AddUserMobileForm.DismissAlert | src/Pages/mobile/AddUserMobile.tsx:73 | the alert closes |
| AddUserMobile.AddUserMobileForm.Finish | src/Pages/mobile/AddUserMobile.tsx:112-128 | all fields reset and the form returns, keeping the flags |
| AddUserMobile.AddUserMobileForm.AddMoreUsers | src/Pages/mobile/AddUserMobile.tsx:130-135 | goes to /users and resets nothing |
| AddUserMobile.AddUserMobileForm.Cancel | src/Pages/mobile/AddUserMobile.tsx:247-253 | "Cancel" goes to /users |
| EditUser.UserData.Set | src/Pages/desktop/EditUserDesktop.tsx:46-48 | the named key takes the value; other keys and the status are unchanged |
| EditUser.UserData.WithStatusToggled | src/Pages/desktop/EditUserDesktop.tsx:57 | `!status`: true becomes false, false or missing becomes true; nothing else changes |
| EditUser.UserData.StatusLabel | src/Pages/desktop/EditUserDesktop.tsx:214 | the label is "Active" exactly when the status is true, else "Inactive" |
| EditUser.IsDirty | src/Pages/desktop/EditUserDesktop.tsx:49 | dirty exactly when some field or the status differs from the original |
| EditUser.FieldwiseEqual | src/Pages/desktop/EditUserDesktop.tsx:49 | two records are equal exactly when they agree field by field |
| EditUser.CleanAgainstItself | src/Pages/desktop/EditUserDesktop.tsx:38-39 | the untouched copy is not dirty |
| EditUser.RevertMakesClean | src/Pages/desktop/EditUserDesktop.tsx:47-50 | typing the original value back into the only differing field, status as in the original, makes the copy clean |
| EditUser.SingleEditDirtyIff | src/Pages/desktop/EditUserDesktop.tsx:47-50 | one edit of the original is dirty exactly when the new value differs from that field's original value |
| EditUser.AbsentKeyStaysDirty | src/Pages/desktop/EditUserDesktop.tsx:47-50 | a key the original lacks stays dirty once typed into, even if cleared |
| EditUser.ToggleTwice | src/Pages/desktop/EditUserDesktop.tsx:55-61 | two toggles restore a set status and leave false behind on a missing one |
| EditUserDesktop.InitialRecord | src/Pages/desktop/EditUserDesktop.tsx:21-36 | the passed record, or the fallback record (status true) if none was passed |
| EditUserDesktop.EditUserDesktopForm.constructor | src/Pages/desktop/EditUserDesktop.tsx:36-40 | the working copy starts as the original; not dirty, Save disabled, no modal |
| EditUserDesktop.EditUserDesktopForm.HandleChange | src/Pages/desktop/EditUserDesktop.tsx:43-52 | one key is set and the flag becomes "copy differs from original"; Save is disabled exactly when it does not |
| EditUserDesktop.EditUserDesktopForm.ToggleStatus | src/Pages/desktop/EditUserDesktop.tsx:55-61 | only the status is negated and the flag is set regardless |
| EditUserDesktop.EditUserDesktopForm.ClickSave | src/Pages/desktop/EditUserDesktop.tsx:64-68 | a disabled (clean) Save does nothing; an enabled one shows the modal and clears the flag, keeping the copy |
| EditUserDesktop.EditUserDesktopForm.BackToUsers | src/Pages/desktop/EditUserDesktop.tsx:249-253 | the modal hides and navigation goes to /users |
| EditUserDesktop.EditUserDesktopForm.Close | src/Pages/desktop/EditUserDesktop.tsx:84 | the close button goes to /users |
| EditUserMobile.OriginalComplete | src/Pages/mobile/EditUserMobile.tsx:11-20 | the fixed original has every key, with status set |
| EditUserMobile.EditUserMobileForm.CurrentView | src/Pages/mobile/EditUserMobile.tsx:60-82 | the success view replaces the form exactly while `showSuccess` holds |
| EditUserMobile.EditUserMobileForm.constructor | src/Pages/mobile/EditUserMobile.tsx:22-24 | the copy starts as the fixed original; not dirty, form view |
| EditUserMobile.EditUserMobileForm.HandleChange | src/Pages/mobile/EditUserMobile.tsx:26-35 | one key is set and the flag becomes "copy differs from original" |
| EditUserMobile.EditUserMobileForm.ToggleStatus | src/Pages/mobile/EditUserMobile.tsx:38-44 | only the status flips and the flag is forced on |
| EditUserMobile.EditUserMobileForm.ClickSave | src/Pages/mobile/EditUserMobile.tsx:46-51 | a clean copy's Save is disabled; otherwise the success view shows, the flag clears and the hide timer is scheduled |
| EditUserMobile.EditUserMobileForm.Tick | src/Pages/mobile/EditUserMobile.tsx:50 | the hide timer returns to the form |
| EditUserMobile.EditUserMobileForm.Done | src/Pages/mobile/EditUserMobile.tsx:76-77 | "Done" goes to /users |
| EditUserMobile.EditUserMobileForm.Cancel | src/Pages/mobile/EditUserMobile.tsx:204-206 | "Cancel" goes to /users |
| EditUserMobile.DoubleToggleRestores | src/Pages/mobile/EditUserMobile.tsx:38-44 | on a complete record a double toggle restores the record exactly |
| ResetPassword.JsLength | src/Pages/ResetPassword.tsx:14 | the UTF-16 length is at least the number of characters, and equal to it within the BMP |
| ResetPassword.Test | src/Pages/ResetPassword.tsx:17-18 | a character-class test holds exactly when some character is in the class |
| ResetPassword.CheckStrength | src/Pages/ResetPassword.tsx:13-30 | never "Strong"; "Medium" exactly when length ≥ 6 with a letter and a digit, "Weak" otherwise (in particular below 6) |
| ResetPassword.StrongImpliesMedium | src/Pages/ResetPassword.tsx:15-27 | whatever meets the "Strong" conditions already meets the "Medium" ones |
| ResetPassword.StrongCandidateIsMedium | src/Pages/ResetPassword.tsx:21-28 | "Abcdef1!" meets every "Strong" condition and is rated "Medium" |
| ResetPassword.MediumThreshold | src/Pages/ResetPassword.tsx:14-20 | "abc123" is "Medium" and "abc12" is "Weak" |
| ResetPassword.ResetPasswordForm.constructor | src/Pages/ResetPassword.tsx:8-11 | both entries empty and hidden |
| ResetPassword.ResetPasswordForm.SetNewPassword | src/Pages/ResetPassword.tsx:86 | the new password is stored |
| ResetPassword.ResetPasswordForm.SetConfirmPassword | src/Pages/ResetPassword.tsx:132 | the confirmation is stored |
| ResetPassword.ResetPasswordForm.ToggleShowNewPassword | src/Pages/ResetPassword.tsx:92 | the visibility of the new password flips |
| ResetPassword.ResetPasswordForm.ToggleShowConfirmPassword | src/Pages/ResetPassword.tsx:138 | the visibility of the confirmation flips |
| ResetPassword.ResetPasswordForm.ShownStrength | src/Pages/ResetPassword.tsx:99 | the indicator appears exactly while the new password is non-empty, and never reads "Strong" |
| ResetPassword.ResetPasswordForm.HandleSubmit | src/Pages/ResetPassword.tsx:34-44 | different entries give the mismatch alert and no navigation; equal ones the success alert and /login, whatever the strength |
| ResetPassword.ResetPasswordForm.BackToLogin | src/Pages/ResetPassword.tsx:156 | "Back to Login" goes to /login |
| Storage.Lookup | src/App.tsx:13 | `getItem` yields the stored value, or null exactly when the key is absent |
| Storage.AfterLogin | src/Pages/Login.tsx:15 | the flag reads "true" and every other key is kept |
| Storage.AfterLogout | src/Pages/Dashboard.tsx:15 | the flag key is gone, so the session check fails, and every other key is kept |
| Storage.LogoutIdempotent | src/Pages/Dashboard.tsx:14-17 | logging out twice leaves the same storage as once |
| Storage.LoginThenLogout | src/Pages/Dashboard.tsx:15 | a logout after a login leaves the storage of a plain logout |
| Storage.LocalStorage.GetItem | src/App.tsx:13 | reading the flag looks the key up in the stored map |
| Storage.LocalStorage.SetItem | src/Pages/Login.tsx:15 | the key takes the value; nothing else changes |
| Storage.LocalStorage.RemoveItem | src/Pages/Dashboard.tsx:15 | the key is removed; nothing else changes |
| Login.CredentialsAreCaseSensitive | src/Pages/Login.tsx:14 | every email or password that differs from the constant only in letter case is rejected |
| Login.CaseVariantsExist | src/Pages/Login.tsx:14 | example: "Onlyteshcodes@gmail.com" and "Password@1." are such case variants |
| Login.LoginPage.constructor | src/Pages/Login.tsx:7-9 | both entries empty, password hidden |
| Login.LoginPage.SetEmail | src/Pages/Login.tsx:53 | the email is stored |
| Login.LoginPage.SetPassword | src/Pages/Login.tsx:64 | the password is stored |
| Login.LoginPage.ToggleShowPassword | src/Pages/Login.tsx:70 | the password visibility flips |
| Login.LoginPage.HandleSubmit | src/Pages/Login.tsx:11-20 | the exact pair sets the flag to "true" and goes to /dashboard; any other pair gives "Invalid credentials!", no navigation and unchanged storage |
| Login.LoginPage.ForgotPassword | src/Pages/Login.tsx:87 | the link goes to /forget-password |
| Login.LoginNavigationRedirectsBack | src/App.tsx:13-32 | under the table built while logged out, the login handler's /dashboard redirects to /login, which renders the login page |
| Login.LoginOpensDashboardOnReload | src/Pages/Login.tsx:15-16 | on the next full page load after a login, /dashboard renders inside the layout |
| Dashboard.DashboardPage.HandleLogout | src/Pages/Dashboard.tsx:14-17 | the flag is removed whatever it held, no other key is touched, the session check then fails, and navigation goes to /login |
| Dashboard.LogoutKeepsLoadedTable | src/App.tsx:13-29 | under the table built while logged in, the logout handler's /login renders the login page and /dashboard still renders the dashboard |
| Dashboard.LogoutLocksProtectedRoutesOnReload | src/Pages/Dashboard.tsx:14-17 | on the next full page load after a logout, every non-public path redirects to /login |
| AppRoutes.StripTrailingSlashes | src/App.tsx:16 | the result is the path without its trailing slashes |
| AppRoutes.CanonicalOfCanonical | src/App.tsx:16-37 | a path with no upper-case letter and no trailing slash is its own canonical form |
| AppRoutes.PatternsAreCanonical | src/App.tsx:16-29 | the declared patterns are already canonical, except "/", whose canonical form is empty |
| AppRoutes.IsPublic | src/App.tsx:18-20 | a path is public exactly when it matches one of the patterns /login, /forget-password and /message-sent |
| AppRoutes.IsProtected | src/App.tsx:23-28 | a path is protected exactly when it matches /dashboard, /users or / |
| AppRoutes.RouteCanonical | src/App.tsx:16-37 | pages inside the layout render exactly for /dashboard and /users with the flag set; the not-found page only with the flag set; every redirect replaces and goes to /login or /dashboard |
| AppRoutes.Route | src/App.tsx:16-37 | public paths render outside the layout; without the flag every other path redirects to /login with replace |
| AppRoutes.PublicIgnoresFlag | src/App.tsx:18-20 | /login, /forget-password and /message-sent render the same page whatever the flag |
| AppRoutes.LoggedInRoutes | src/App.tsx:23-29 | logged in: /dashboard and /users render in the layout, "/" redirects to /dashboard |
| AppRoutes.LoggedInUnknownIsNotFound | src/App.tsx:36 | logged in: any other path renders NotFound |
| AppRoutes.AddAndEditAreNotFound | src/App.tsx:36 | logged in: /users/add and /users/edit render NotFound |
| AppRoutes.LoggedOutRendersOnlyPublic | src/App.tsx:30-33 | logged out: only the three public pages ever render |
| AppRoutes.TrailingSlashIgnored | src/App.tsx:16-37 | for every path, appending "/" does not change the outcome |
| AppRoutes.StripAgreesUpToCase | src/App.tsx:16-37 | two paths equal up to letter case lose the same trailing slashes and keep equal lower-cased forms |
| AppRoutes.CaseIgnored | src/App.tsx:16-37 | any two paths equal up to letter case route alike |
| AppRoutes.LowerCaseIgnored | src/App.tsx:16-37 | a path and its lower-cased form route alike |
| AppRoutes.RedirectsLandOnPages | src/App.tsx:28-32 | following any redirect renders a page: there is no redirect loop |
| ProtectedRoute.Protect | src/components/ProtectedRoute.tsx:9-13 | the children, unchanged, exactly when the flag is "true"; otherwise a replacing redirect to /login |
| ProtectedRoute.NearMissesRedirect | src/components/ProtectedRoute.tsx:9 | a missing flag, "false" and "TRUE" all redirect |
| ProtectedRoute.GuardFollowsSession | src/components/ProtectedRoute.tsx:9-13 | after logout the guard redirects; after login it renders its children |

## Left out

- Markup, styling, icons and layout are not modelled. The purely presentational components are left out: the sidebars, `MainLayout`, the `UserManagement` breakpoint switch, `DeleteUserMobile`, `MessageSent`, `NotFound` and `ForgetPassword`. Only their route outcomes are kept.
- The user fetch is left out: `src/api/users.request.ts` and the React Query loading and error states are network I/O. The fetched payload is an input to `MobileListView`, and a refetch is `ReceivePayload`. A refetch does not reset the page, so for the mobile list "the page is in range" is kept only across its own handlers.
- The click-outside handlers and the open/closed state of the dropdowns are left out, because they are DOM event plumbing.
- `highlightMatch` is left out. It builds a regular expression from the unescaped search text.
- Locale date formatting and the displayed country and registration date of a record are left out.
- Text.Lower: maps only ASCII letters, while JavaScript `toLowerCase` maps every Unicode letter.
- AppRoutes.Route: React Router's matching is modelled as ASCII case-insensitive and blind to trailing slashes. Percent-decoding, repeated inner slashes and a base name are not modelled.
- Real timers are modelled as `Tick` steps that fire a scheduled callback. The 300, 400 and 2500 ms delays and their order against user events are not modelled. `Tick` fires only when a timer is pending.
- `alert` and `console` calls are left out. The alert texts become returned values.
- Router navigation is not modelled. Its target becomes a returned path, and the route table that target meets is `Route` under the flag passed in.
- Login.LoginOpensDashboardOnReload and Dashboard.LogoutLocksProtectedRoutesOnReload: hold for the table `App` builds on its next render, that is, after a full page load. Before that the table built at the previous load stays in effect, as Login.LoginNavigationRedirectsBack and Dashboard.LogoutKeepsLoadedTable state. React's rendering itself is not modelled.
- `location.state` is modelled as an optional `UserData`. Keys outside the eight edited ones are carried unchanged in the source, so they never affect the dirty test and are not modelled.
- EditUser.IsDirty: compares field by field, where the source compares `JSON.stringify` strings. The two agree because the working copy starts as the original and new keys are only appended. Key order, non-string values and extra keys are not modelled.
- HTML constraint validation is left out. The `required` attribute on the login and reset-password inputs and the `type="email"` check run in the browser before the submit handlers, which are what is modelled.
- The disabled state of the Previous, Next and Save buttons is modelled as "a click does nothing". Tab focus and styling of disabled buttons are not modelled.
- The code has no select-all checkbox or select-all-visible operation, so none is modelled.
- The bulk-action menus only record a choice per menu. No action is applied to the selection, exactly as in the code.
- In `AddUserDesktop`, the username and phone inputs take their error styling from the email flag. This is styling only, so it is not modelled.
- The "Edit" link on the add-user summaries has no handler in the code, so it is not modelled.
