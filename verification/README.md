# Admin tables, search filters and API glue of the document web app — a Dafny model

This project models the logic that the web front end of the document
management application implements itself, as opposed to what it leaves to its
table, HTTP and routing libraries:

- **CategoryForest** (`category_forest.dfy`): the category forest,
  `findParentCategory`'s depth-first search, and the "parent" column of the
  admin category table (None / parent badge / Unknown). The search is proved
  equal to "first match of the preorder listing", an independent reference.
- **DeleteFlow** (`delete_flow.dfy`): the delete-confirmation dialog shared by
  the category and tag tables, as a state `(open, pending)` with the events
  click-delete, confirm and open-change; `onDelete` is an emitted effect, and
  runs of events are related to the deletions they emit.
- **TableCells** (`table_cells.dfy`): the description cell fallback and the
  page-size set-up of the two tables.
- **AdminState** (`admin_state.dfy`): the admin context's filters and
  pagination, `updatePagination` / `updateFilters` as partial-record merges,
  the document queries built from them, and the `useAdminContext` guard.
- **SearchParams** (`search_params.dfy`): the search filter panel, with the URL
  query as a map from key to value; initial selections, "apply" and "clear".
- **NavigationMenu** (`navigation_menu.dfy`): the home navigation menu; the two
  special categories picked out by name, the ordinary categories, the
  sub-menus with their fallback entry, the icon lookup and the link format.
- **AuthRedirect** (`auth_redirect.dfy`): the request and response
  interceptors of the HTTP client; the page change to `/login` is an emitted
  effect.
- **ApiErrors** (`api_errors.dfy`): the mapping of a failed HTTP call to the
  `{status, message, errors}` object the user API client throws.
- **Text** and **Wrappers**: the JavaScript string operations used above
  (truthiness, `||` fallbacks, `toLowerCase`, `includes`, `endsWith`) and
  `Option` / `Result`.

Conventions: `None` stands for `undefined`, `null` or a key the caller left
out (an object spread, however, copies a key whose value is an explicit
`undefined`; see "## Left out"); an optional string is falsy when it is absent or empty, as in
JavaScript. An absent `children` array is the empty sequence, because every
code path treats the two alike (`children && children.length > 0`,
`children?.map`, `!children || children.length === 0`). JavaScript numbers
are integers.

Closing the delete dialog (its Cancel button or Escape) only sets
`open = false` and keeps the pending record; a later click replaces it
(`DeleteFlow.Handle`, `DeleteFlow.CancelThenConfirm`). Confirm tests only whether a record is
pending, not whether the dialog is open.

## Model

| member | source | states |
|---|---|---|
| CategoryForest.FindParentCategory | apps/web/components/common/admin/category/category-table.tsx:44-59 | no parent for an absent or empty id; otherwise the first category with that id in the preorder listing of the whole forest, at any depth; a found category has the requested id and lies in the forest; nothing is found exactly when no category anywhere has the id |
| CategoryForest.SearchIsFirstInPreorder | apps/web/components/common/admin/category/category-table.tsx:47-58 | the recursive walk returns exactly the first match of the preorder listing (root before its children, a subtree before later roots) |
| CategoryForest.SearchAppend | apps/web/components/common/admin/category/category-table.tsx:47-54 | earlier roots and their whole subtrees are searched before any later root |
| CategoryForest.GuardIsRedundant | apps/web/components/common/admin/category/category-table.tsx:52-55 | skipping the recursion for a category without children gives the same result as always recursing |
| CategoryForest.PreorderAppend | apps/web/components/common/admin/category/category-table.tsx:47-56 | the preorder listing of two forests side by side is the first listing followed by the second |
| CategoryForest.NestedLookupExample | apps/web/components/common/admin/category/category-table.tsx:44-58 | in the forest A with child B, looking up "B" finds B below its root, "Z" finds nothing and an absent id finds nothing |
| CategoryForest.ParentCellFor | apps/web/components/common/admin/category/category-table.tsx:131-148 | "None" exactly when the row's parent id is falsy; a badge carrying the name of the first category with that id in the whole collection; "Unknown" exactly when the id is truthy and no category has it |
| DeleteFlow.Handle | apps/web/components/common/admin/category/category-table.tsx:76-87 | clicking delete opens the dialog and replaces the pending record; confirm with a pending record emits its id once and resets to closed with nothing pending; confirm with nothing pending changes nothing; open-change only sets `open`; a deletion is emitted exactly on a confirm with a pending record |
| DeleteFlow.DeletionsAreRequested | apps/web/components/common/admin/tag/tag-table.tsx:76-87 | over any run of events, no more deletions than confirms, and every deleted id was pending at the start or clicked during the run |
| DeleteFlow.AtMostOncePerRequest | apps/web/components/common/admin/tag/tag-table.tsx:81-86 | without a new click, a pending record is deleted at most once however often confirm fires, and nothing is deleted when nothing is pending |
| DeleteFlow.NoConfirmNoDeletion | apps/web/components/common/admin/tag/tag-table.tsx:394-396 | clicks and closing (the Cancel button included) never call `onDelete`; only confirm does |
| DeleteFlow.CancelThenConfirm | apps/web/components/common/admin/category/category-table.tsx:369-385 | click then cancel leaves the dialog closed with the record still pending and deletes nothing; click then confirm deletes exactly that record's id once and returns to the initial state; click, cancel, a click on another record and confirm delete only the other record |
| TableCells.DescriptionCell | apps/web/components/common/admin/tag/tag-table.tsx:139 | the description itself when it is present and non-empty, otherwise "Không có mô tả"; never empty |
| TableCells.InitialPageSizeOffered | apps/web/components/common/admin/tag/tag-table.tsx:211-215 | the initial page size 10 is among the sizes the tag selector (5, 10, 20, 30, 40, 50) and the category selector (5, 10, 20, 30, 50) offer, all of them positive |
| AdminState.UpdatePagination | apps/web/contexts/adminContext.tsx:213-218 | each supplied pagination field replaces the old one, an omitted field keeps its value, and the filters are untouched |
| AdminState.UpdateFilters | apps/web/contexts/adminContext.tsx:220-228 | each supplied filter replaces the old one, omitted filters keep their values, the page index returns to 0 and the page size is kept |
| AdminState.UpdatePaginationLaws | apps/web/contexts/adminContext.tsx:213-218 | two pagination updates equal one with the combined patch (the later key wins), an empty patch changes nothing, and repeating an update changes nothing more |
| AdminState.UpdateFiltersLaws | apps/web/contexts/adminContext.tsx:220-228 | the same composition and idempotence laws for filter updates; an empty filter patch still resets the page index |
| AdminState.DocumentsQuery | apps/web/contexts/adminContext.tsx:192-199 | the server page is the view's page index plus one, the limit is the page size, and the four filters are copied unchanged |
| AdminState.SameRenderLastWins | apps/web/contexts/adminContext.tsx:213-228 | updates issued within one render each start from that render's state, so the last one to set a state variable wins: of two pagination updates only the second takes effect, and a filter update discards an earlier pagination update of the same render |
| AdminState.QueryDeterminesView | apps/web/contexts/adminContext.tsx:192-199 | two views that send the same document query are the same view: every filter and both pagination fields reach the server |
| AdminState.InitialFetch | apps/web/contexts/adminContext.tsx:140-155 | the initial load asks for the filtered documents of the current view and for pending documents always as page 1 with limit 4 |
| AdminState.ValidityPreserved | apps/web/contexts/adminContext.tsx:123-134 | the initial state (page 0, size 10, every filter "all") is valid; filter updates and pagination updates with valid values keep it valid; a valid view asks for page 1 or later, and right after a filter update for page 1 |
| AdminState.UseAdminContext | apps/web/contexts/adminContext.tsx:295-302 | fails with the guard's message exactly when no provider value is present, otherwise returns that value |
| SearchParams.InitialSelections | apps/web/components/search/SearchFilters.tsx:31-39 | the category, sort field and sort order parameters when present and non-empty, otherwise "all", "relevance" and "DESC"; never empty |
| SearchParams.ApplyFilters | apps/web/components/search/SearchFilters.tsx:58-72 | the category key is set exactly when the selection is non-empty and not "all" and removed otherwise; sort field, sort order and page "1" are always set; every other key, such as `q`, keeps its presence and value |
| SearchParams.ClearFilters | apps/web/components/search/SearchFilters.tsx:74-86 | removes the category, sets sort field "relevance", sort order "desc" and page "1", keeps every other key, and resets the panel to "all", "relevance", "desc" |
| SearchParams.ClearLeavesNoRadioSelected | apps/web/components/search/SearchFilters.tsx:78-83 | after clearing, the panel's sort order "desc" is neither radio value ("DESC", "ASC"), unlike the "DESC" a page without parameters starts with |
| SearchParams.ClearFiltersIntended | apps/web/components/search/SearchFilters.tsx:74-86 | clearing with the panel's own default order: category removed, sort field "relevance", sort order "DESC", page "1", other keys kept, and the panel reset to "all", "relevance", "DESC" |
| SearchParams.ClearIntendedMatchesFreshPanel | apps/web/components/search/SearchFilters.tsx:31-39 | the intended clear leaves the panel as a page without filter parameters starts, with a radio value selected, and its URL reads back as the same selections |
| SearchParams.ApplyThenRead | apps/web/components/search/SearchFilters.tsx:58-69 | the page that "apply" navigates to starts with the selections applied, empty values read back as their defaults |
| SearchParams.ReadThenApply | apps/web/components/search/SearchFilters.tsx:31-65 | applying the selections a page starts with keeps every unmanaged key, keeps a real category and drops a missing, empty or "all" category |
| SearchParams.Idempotent | apps/web/components/search/SearchFilters.tsx:58-79 | applying the same selections twice, or clearing twice, gives the same parameters as once |
| NavigationMenu.FindFirst | apps/web/components/home/NavigationMenuClient.tsx:34-40 | the first category whose lower-cased name contains the fragment, or nothing exactly when no name contains it |
| NavigationMenu.WithoutSpecials | apps/web/components/home/NavigationMenuClient.tsx:42-46 | a category is kept exactly when its id is not that of a present special category |
| NavigationMenu.WithoutSpecialsAppend | apps/web/components/home/NavigationMenuClient.tsx:42-46 | the filter keeps the original order: filtering a concatenation concatenates the filtered parts |
| NavigationMenu.Partition | apps/web/components/home/NavigationMenuClient.tsx:34-46 | with unique ids, every category is either an ordinary menu entry or one of the special categories, never both, and the special categories come from the input |
| NavigationMenu.IconLookup | apps/web/components/home/NavigationMenuClient.tsx:20-27 | the icon is looked up in a plain object: a lower-cased name of "constructor" or "__proto__" yields the value inherited from `Object.prototype` (the `Object` function, or the prototype object itself), which is truthy so no fallback applies; every other name misses the table, whose keys all start with an upper-case "T" that a lower-cased name never has, and gets the globe |
| NavigationMenu.ChildItem | apps/web/components/home/NavigationMenuClient.tsx:77-93 | a child entry has the child's name and "/category/" + slug; language entries carry the icon the lookup yields, which is the globe for every name but "constructor" and "__proto__" in any case, exam entries none; the description falls back to "Tài liệu học " or "Tài liệu ôn thi " followed by the name |
| NavigationMenu.FallbackItem | apps/web/components/home/NavigationMenuClient.tsx:94-105 | the entry for a special category without children is the category itself (its name and "/category/" + slug), with the globe for languages and no icon for exams (lines 129-138), and its description or else "Tài liệu học ngoại ngữ các loại" / "Tài liệu ôn thi các loại" |
| NavigationMenu.SubMenu | apps/web/components/home/NavigationMenuClient.tsx:77-105 | entry i is exactly the child entry of child i, in order, or the sub-menu is exactly the one fallback entry when the category has no children; never empty; every link is a category page and every description non-empty |
| NavigationMenu.BuildMenu | apps/web/components/home/NavigationMenuClient.tsx:48-145 | one top-level link per ordinary category in order; each special menu present exactly when some name contains its fragment, filled by the first such category with that category's sub-menu |
| AuthRedirect.OnResponse | apps/web/lib/apis/config.ts:34-51 | a successful response passes through unchanged; a failure is always rejected with the same error, and the browser is sent to "/login" exactly when the status is 401, the URL is missing or does not end in "/me", the code runs in a browser and the current page is neither "/login" nor "/register" |
| AuthRedirect.OnRequest | apps/web/lib/apis/config.ts:24-31 | request configs pass through unchanged and request errors are rejected with no page change |
| AuthRedirect.NoRedirectCases | apps/web/lib/apis/config.ts:40-45 | no redirect for another status, a "/me" request, the server, or the login and register pages; an unauthenticated call without a URL redirects from any other page |
| ApiErrors.Normalise | apps/web/lib/apis/userApi.ts:20-31 | with a response: its status, its message when truthy or else the operation's default, and its `errors`; a response without a body raises a TypeError instead; without a response: status 500, the error's own message when truthy or else "Lỗi máy chủ nội bộ", no `errors`; the message is never empty |
| ApiErrors.OperationsDifferOnlyInDefault | apps/web/lib/apis/userApi.ts:20-74 | the three operations throw the same status and `errors` and differ only when a response carries no message of its own, where each uses its own default |

## Findings

| source | as written | input that shows it | evidently intended | confidence | as-written member | corrected member |
|---|---|---|---|---|---|---|
| apps/web/components/search/SearchFilters.tsx:78-83 | "clear" sets the URL's and the panel's sort order to "desc" | any parameters: after clearing, the radio group's values are "DESC" and "ASC", so neither is selected, while a page without parameters selects "DESC" | reset the order to the panel's own default "DESC" | medium; not executed | SearchParams.ClearLeavesNoRadioSelected | SearchParams.ClearFiltersIntended |

## Left out

- Sorting, column filtering, pagination, page counts and row selection of the two tables: the grid library performs them, not this code.
- Data fetching in the admin context (effects, their order, `isLoading`, notifications, logging) and the lack of protection against a stale response: input/output and component lifecycle. The other plain state setters of the context (documents, modals, selected document) are not modelled.
- The HTTP calls themselves, the client's base URL, timeout and headers, and the server-side fetch wrapper: foreign library code.
- The query-string encoding of `URLSearchParams`, repeated keys and `router.push`: parameters are an abstract map in which `set` replaces and `delete` removes a key.
- Text.ToLower: lower-cases ASCII, Latin-1 and Vietnamese letters only; other Unicode case mappings are left as the identity.
- NavigationMenu.BuildMenu: top-level and trigger labels are shown upper-cased; the model keeps the raw name, as upper-casing is presentation.
- AdminState.UpdatePaginationLaws: the composition law models each update as seeing the result of the previous one, that is one update per render; within a single render the last update wins instead (`AdminState.SameRenderLastWins`).
- AdminState.UpdateFiltersLaws: the same holds for filter updates: the law assumes a render between the calls, and within one render a filter update also discards an earlier pagination update (`AdminState.SameRenderLastWins`).
- NavigationMenu.IconLookup: the model records which value the lookup yields; what React draws for it (nothing for the inherited function, a render error for the inherited object) is not modelled.
- AdminState.UpdatePagination: a patch key present with the value `undefined` is not modelled; `None` always means the key was left out, whereas the spread would copy the `undefined`.
- AdminState.UpdateFilters: likewise, `setFilters({category: undefined})` would write `undefined` into the filter; the model keeps the old value for `None`.
- ApiErrors.Normalise: a thrown `errors` key holding `undefined` and a missing key are both `None`.
- A cyclic `children` relation cannot be expressed by the model's finite datatype, so the search always terminates here; the source has no guard against such data.
- The edit button's `onEdit` call, the registration form, the button styles, the admin header, the dashboard layout and the Next.js configuration: presentation, or effects that go straight to other libraries.
