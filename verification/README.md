# Retail sales dashboard: a verified model of its query, paging and filter logic

The dashboard lists sales rows from a PostgreSQL table. The user searches, filters, sorts and pages through them in a React front end. This project models the parts of that system that hold logic:

- **Query service** (`getSalesData`). It turns the request parameters into one parameterised row query and one count query. It adds:
  - a name-or-phone `ILIKE` search;
  - one `column IN ($i, …)` clause per multi-select filter;
  - an `OR` of tag `ILIKE`s;
  - four age and date bounds;
  - a whitelisted sort column;
  - `LIMIT`/`OFFSET` placeholders.
- **HTTP handler** (`getSales`). It runs both queries and answers with the rows and a pagination summary that it recomputes from the raw request. Any exception becomes a 500.
- **Pagination bar**. It shows every page when there are at most seven. Otherwise it shows the first page, a window around the current page, the last page, and "..." gaps.
- **Filter panel**. Multi-select pills keep their selection as one comma-joined string. Age and date inputs refuse a negative age. Leaving an input swaps a minimum and maximum that are out of order.
- **Data hook** (`useSalesData`). It holds the page, search, filters and sort. Its handlers reset the page or flip the sort order. It builds the request and drops empty-string parameters.

## How the model is built

JavaScript values are modelled directly:

- A request parameter is a `Field`: `Absent`, `Str(s)` or `Arr(values)`, because Express turns a repeated key into an array.
- `parseInt` results are `Num`: `NaN` or `Finite(n)`.
- Truthiness, destructuring defaults, `split`/`join`, `x || d`, `Math.ceil(a / b)` and the `TypeError` from `toLowerCase` on an array are each written out.

SQL text is a list of tokens: literal text, and placeholders `$k` rendered by `NatToString`. Properties about placeholders are therefore about numbers, not parsed strings.

The WHERE builder is a fold over nine steps (`Steps`). It runs after the search step and mirrors the order of the calls in `salesService.js`. `Intended(q)` is the reference: the list of conditions the request asks for, one per truthy parameter, as plain values with no SQL text, placeholder numbers or parameter list. It shares with the builder:

- the step list `Steps`;
- the helpers that read a parameter's values and wrap them as bound values: `ValuesOf`, `AsText`, `Pattern`, `TextValues`, `PatternValues` and `BoundValue`.

What the builder adds on top is checked against it: which placeholders each clause's text mentions, their `$k` numbering, and the bound parameter list. The literal SQL words around the placeholders (`ILIKE`, `IN`, `OR`, the column names) are not compared with the reference. They are fixed by the clause renderer `ClauseTokens` and pinned for each step by `AddFilterAppends` and `AddTagsAppends`. The invariant `Sound` connects the builder to that reference.

The database is represented by function parameters. So are JavaScript's number and date parsing in the front end.

The handler parses `page` and `limit` on its own, separately from the service. Two lemmas make the resulting disagreement precise:

- `SummaryMatchesQuery`: for a positive page and limit, the pagination summary describes exactly the rows fetched.
- `SummaryDiverges`: outside that range the two can disagree. Other values, such as page -2 with limit 10, still agree.
  - Page 0 is fetched with `OFFSET -limit` but reported as page 1.
  - A page that does not parse is fetched with `OFFSET NaN` but reported as page 1.
  - A limit of 0 or `NaN` is fetched as `LIMIT 0` or `LIMIT NaN` but reported as 10 per page.

The model keeps this behaviour as the code has it.

## Model

| member | source | states |
|---|---|---|
| Strings.Split | backend/src/services/salesService.js:23 | `split(',')` yields one piece more than there are commas, and no piece contains a comma |
| Strings.JoinSplit | backend/src/services/salesService.js:23 | joining the pieces of a split with the separator gives the original string back |
| Strings.SplitJoin | frontend/src/components/FilterPanel.jsx:9-18 | splitting a join of separator-free pieces gives the pieces back |
| Strings.NatToString | backend/src/services/salesService.js:15 | a `$k` number is rendered as non-empty decimal digits without a leading zero |
| Strings.NatToStringRoundTrip | backend/src/services/salesService.js:24 | reading back the digits of a rendered placeholder number gives the number |
| Strings.NatToStringInjective | backend/src/services/salesService.js:24 | different placeholder numbers are rendered as different texts |
| JsMath.Sub | backend/src/services/salesService.js:58 | `parseInt(page) - 1` is NaN exactly when an operand is NaN; otherwise it is the difference |
| JsMath.Mul | backend/src/services/salesService.js:58 | the offset product is NaN exactly when an operand is NaN; otherwise it is the product |
| JsMath.OrElse | backend/src/controllers/salesController.js:9-10 | `x \|\| d` keeps a non-zero number and falls back to `d` for 0 and NaN |
| JsMath.CeilDiv | backend/src/controllers/salesController.js:11 | `Math.ceil(a / b)` is the integer q with (q-1)·b < a ≤ q·b for positive b, and the mirrored bracket for negative b |
| JsMath.CeilDivUnique | backend/src/controllers/salesController.js:11 | the bracketing integer is unique, so it is the ceiling |
| SalesService.OrDefault | backend/src/services/salesService.js:3-6 | a destructuring default fills in only a missing parameter: a missing one becomes the default, a present one is kept as it is |
| SalesService.SortColumn | backend/src/services/salesService.js:52-53 | the sort column is always one of date, quantity and customer_name; a listed key is kept and any other key becomes date |
| SalesService.Compile | backend/src/services/salesService.js:3-68 | it fails exactly when `sortOrder` is an array; otherwise the sort column is whitelisted, the direction is ASC exactly when the lower-cased order is "asc", the count query is the count prefix over the same WHERE text and values, the row query binds the WHERE values then LIMIT and OFFSET, and the offset is (page-1)·limit unless a part is NaN |
| SalesServiceProofs.RunSound | backend/src/services/salesService.js:30-47 | running the filter, tag and range steps in order keeps the builder invariant and adds each step's conditions in order |
| SalesServiceProofs.WhereSound | backend/src/services/salesService.js:14-47 | the whole WHERE builder, from `paramIndex = 1`, ends sound for the request's intended conditions |
| SalesServiceProofs.CompileMatchesIntended | backend/src/services/salesService.js:9-49 | there is one compiled clause per intended condition, in order; substituting the bound values for its placeholders gives that condition; `paramIndex` ends one past the last value |
| SalesServiceProofs.ClausePlaceholders | backend/src/services/salesService.js:15-47 | each clause's text mentions exactly its own placeholders: the search one twice, the others once each, in order |
| SalesServiceProofs.WherePlaceholders | backend/src/services/salesService.js:49 | joining the clauses with AND and prefixing WHERE mentions the clauses' placeholders in clause order |
| SalesServiceProofs.DataQueryPlaceholders | backend/src/services/salesService.js:61-66 | the row query mentions the WHERE placeholders, then `$n` for LIMIT and `$n+1` for OFFSET |
| SalesServiceProofs.CountQueryPlaceholders | backend/src/services/salesService.js:68 | the count query mentions exactly the WHERE placeholders |
| SalesServiceProofs.PlaceholdersDense | backend/src/services/salesService.js:61-72 | for every request the WHERE text mentions `$1..$n` for the n bound values, LIMIT and OFFSET take `$n+1` and `$n+2` bound to the limit and offset, and every placeholder of either query names one of that query's values |
| SalesServiceProofs.IntendedSearchFirst | backend/src/services/salesService.js:14-18 | among the intended conditions only the first can be the search, and it is the search exactly when search is truthy |
| SalesServiceProofs.SearchClauseFirst | backend/src/services/salesService.js:14-18 | a truthy search gives the first clause, which uses `$1` twice and is bound to `%search%` |
| SalesServiceProofs.AddFilterAppends | backend/src/services/salesService.js:21-28 | a falsy field adds nothing; otherwise it adds the one clause `In(column, next, n)`, rendered `column IN (…)`, with one placeholder per value numbered from the current index, and those values in order, duplicates kept; a string field has one value more than commas |
| SalesServiceProofs.AddTagsAppends | backend/src/services/salesService.js:36-41 | a falsy field adds nothing; truthy tags add the one clause `TagsLike(next, n)`, whose text is a parenthesised OR of `tags ILIKE $k` with one placeholder per tag, each bound to the tag wrapped in `%` |
| SalesServiceProofs.RangesAsked | backend/src/services/salesService.js:44-47 | for each of the four bounds, the conditions hold a comparison on its column and operator against a value exactly when the bound is truthy and the value is the bound as it arrived; a falsy bound adds nothing |
| SalesServiceProofs.CompareFrom | backend/src/services/salesService.js:14-47 | every comparison among the request's conditions comes from one of the four range lines, with a truthy bound |
| SalesServiceProofs.RangesNotSwapped | backend/src/services/salesService.js:44-45 | the service never reorders bounds: exchanging two different age bounds changes the intended conditions |
| SalesServiceProofs.NoFiltersNoWhere | backend/src/services/salesService.js:14-49 | there are no clauses exactly when no search or filter is truthy; then nothing is bound, the index stays 1 and `whereSQL` is "" |
| SalesServiceProofs.OnlyRegion | backend/src/services/salesService.js:30 | a request whose only filter is a region gets exactly one `customer_region IN` clause over the region's values |
| SalesServiceProofs.NoFilterDefaults | backend/src/services/salesService.js:3-68 | a bare request compiles to no WHERE, date DESC, LIMIT 10 OFFSET 0, with the exact row-query and count-query texts |
| SalesServiceProofs.DirectionExamples | backend/src/services/salesService.js:54 | "ASC" and "Asc" sort ascending; "ascending" and "DESC" sort descending |
| SalesServiceProofs.RegionExample | backend/src/services/salesService.js:21-30 | `region=a,b` binds [a, b] and renders `WHERE customer_region IN ($1, $2)` |
| SalesServiceProofs.EmptyPieceExample | backend/src/services/salesService.js:23 | an empty piece between two commas is still bound, as the empty string |
| SalesController.CurrentPage | backend/src/controllers/salesController.js:9 | the reported page is never 0: it is the parsed page, or 1 when that is missing, NaN or 0 |
| SalesController.ItemsPerPage | backend/src/controllers/salesController.js:10 | the reported page size is never 0: it is the parsed limit, or 10 when that is missing, NaN or 0 |
| SalesController.TotalPages | backend/src/controllers/salesController.js:11 | for a positive limit the page count brackets the total, and it is 0 exactly when there are no items; for a negative limit (`parseInt("-5") \|\| 10` is -5) the mirrored bracket holds and the count is at most 0 |
| SalesController.GetSales | backend/src/controllers/salesController.js:3-28 | the answer is a 500 "Server Error" exactly when compiling throws or either query fails; otherwise it is a 200 with the fetched rows and count, `Math.ceil(count / limit)` pages, and the page and limit read as `parseInt(x) \|\| default` |
| SalesControllerProofs.PaginationConsistent | backend/src/controllers/salesController.js:9-21 | for a positive page size the summary has enough pages for all items and a non-empty last page; page k holds items exactly when 1 ≤ k ≤ totalPages |
| SalesControllerProofs.TotalPagesUnique | backend/src/controllers/salesController.js:11 | any bracketing page count is the one reported |
| SalesControllerProofs.TotalPagesExamples | backend/src/controllers/salesController.js:11 | 0, 1, 10, 11 and 95 items at 10 per page give 0, 1, 1, 2 and 10 pages |
| SalesControllerProofs.SummaryMatchesQuery | backend/src/controllers/salesController.js:6-11 | for a positive or missing page and limit, the reported page size and page are those bound as LIMIT and OFFSET |
| SalesControllerProofs.SummaryDiverges | backend/src/controllers/salesController.js:9-10 | page 0 is fetched at offset −limit but reported as page 1; a page that does not parse is fetched at offset NaN but reported as page 1; limit 0 or NaN is fetched as LIMIT 0 or NaN but reported as 10 |
| SalesControllerProofs.RepeatedSortOrderFails | backend/src/controllers/salesController.js:24-27 | a repeated `sortOrder` parameter produces the 500 answer |
| Pagination.PageRun | frontend/src/components/Pagination.jsx:13 | a counting loop yields the pages lo..hi in order |
| Pagination.Render | frontend/src/components/Pagination.jsx:3-81 | for a positive page size the bar is hidden exactly when all items fit on one page; prev is disabled exactly on page 1 and next exactly on the last page; the buttons shown are exactly the pages `Shown` allows, with a gap marker at each skip, 1 to 7 buttons from page 1 to the last page |
| Pagination.SinglePage | frontend/src/components/Pagination.jsx:4-6 | at most one page exactly when the items fit on one page |
| Pagination.WindowCases | frontend/src/components/Pagination.jsx:17-52 | with more than seven pages the bar is `1 2 3 4 … tp`, `1 … cp-1 cp cp+1 … tp` or `1 … tp-3 tp-2 tp-1 tp` |
| Pagination.FewPages | frontend/src/components/Pagination.jsx:12-15 | with at most seven pages every page has its button, in order |
| Pagination.ShowsExactly | frontend/src/components/Pagination.jsx:9-53 | page k has a button exactly when `Shown` names it: the first, the last, the neighbours of the current page, and the first or last four near either end |
| Pagination.Ordered | frontend/src/components/Pagination.jsx:34-50 | adjacent page buttons are consecutive, and a "..." stands exactly between pages that skip |
| Pagination.Bounds | frontend/src/components/Pagination.jsx:9-53 | a bar starts at 1, ends at the last page, has 1 to 7 buttons and shows the current page when it is in range |
| FilterPanel.Selected | frontend/src/components/FilterPanel.jsx:9 | an empty value selects nothing; otherwise there is one choice more than there are commas |
| FilterPanel.Remove | frontend/src/components/FilterPanel.jsx:14 | filtering an option out keeps exactly the other choices |
| FilterPanelProofs.RemoveCounts | frontend/src/components/FilterPanel.jsx:14 | every copy of the option goes and every copy of each other choice stays |
| FilterPanelProofs.RemoveOrder | frontend/src/components/FilterPanel.jsx:14 | the remaining choices keep their order |
| FilterPanel.DisplayText | frontend/src/components/FilterPanel.jsx:31-38 | the caption is the title alone, the title with the one or two choices, or the title with the count of choices |
| FilterPanel.PillChange | frontend/src/components/FilterPanel.jsx:86-89 | a pill click sets only that filter, to the toggled value |
| FilterPanel.InputChange | frontend/src/components/FilterPanel.jsx:92-97 | a change is refused exactly for an age input whose text is a negative number; otherwise only that filter is set, to the text |
| FilterPanel.Blur | frontend/src/components/FilterPanel.jsx:100-125 | new filters are reported exactly when the ages or the dates are filled and out of order |
| FilterPanelProofs.SelectedJoin | frontend/src/components/FilterPanel.jsx:9-18 | joining a clean selection and reading it back gives the selection |
| FilterPanelProofs.JoinSelected | frontend/src/components/FilterPanel.jsx:9-18 | joining the pieces of a pill value gives the value back |
| FilterPanelProofs.ToggleFlips | frontend/src/components/FilterPanel.jsx:11-19 | a click flips exactly the clicked option, keeps every other choice and keeps the value clean |
| FilterPanelProofs.ToggleTwice | frontend/src/components/FilterPanel.jsx:11-19 | clicking an unchosen comma-free option twice restores the pill value, empty pieces included |
| FilterPanelProofs.EmptyPieces | frontend/src/components/FilterPanel.jsx:9-19 | an empty option clicked on an empty pill is never chosen, and removing the only real choice of "a," also drops its empty piece |
| FilterPanelProofs.CaptionCounts | frontend/src/components/FilterPanel.jsx:31-38 | three or more choices are captioned with their count; one or two are listed |
| FilterPanelProofs.BlurOnlySwaps | frontend/src/components/FilterPanel.jsx:100-125 | leaving an input keeps the keys and every non-range filter, and each pair is either exchanged or left unchanged |
| FilterPanelProofs.BlurSettles | frontend/src/components/FilterPanel.jsx:100-125 | after a swap both pairs are in order, so a second blur reports nothing |
| SalesHook.Clean | frontend/src/hooks/useSalesData.jsx:54-58 | a parameter is kept exactly when its value is not the empty string, and a kept value is unchanged |
| SalesHook.HandlePageChange | frontend/src/hooks/useSalesData.jsx:105-107 | only the page changes |
| SalesHook.HandleSearch | frontend/src/hooks/useSalesData.jsx:109-112 | the search is set and the page goes back to 1; filters and sort stay |
| SalesHook.HandleFilterChange | frontend/src/hooks/useSalesData.jsx:114-117 | the filters are replaced and the page goes back to 1; search and sort stay |
| SalesHook.HandleSortChange | frontend/src/hooks/useSalesData.jsx:119-124 | the clicked column becomes the sort field; the order is "desc" exactly when that column was already sorted "asc", and "asc" otherwise |
| SalesHookProofs.SortStaysValid | frontend/src/hooks/useSalesData.jsx:32-124 | the sort order starts as, and stays, "asc" or "desc" under every handler |
| SalesHookProofs.SortTwice | frontend/src/hooks/useSalesData.jsx:119-124 | two clicks on the sorted column restore its order; two clicks on a new column leave it descending |
| SalesHookProofs.RawLookup | frontend/src/hooks/useSalesData.jsx:44-51 | a filter of the same name overrides a fixed parameter; otherwise page, limit 10, search, sortBy and sortOrder are sent; no other key appears |
| SalesHookProofs.QuietRequest | frontend/src/hooks/useSalesData.jsx:44-58 | with no search and every filter empty, only page, limit, sortBy and sortOrder are sent |
| SalesHookProofs.InitialRequest | frontend/src/hooks/useSalesData.jsx:16-58 | the request on mount is exactly {page: 1, limit: 10, sortBy: "date", sortOrder: "desc"} |
| SalesHookProofs.RequestFields | frontend/src/hooks/useSalesData.jsx:44-58 | the page, limit and sort order reach the service as the hook holds them |
| SalesHookProofs.CompileOrdered | backend/src/services/salesService.js:54-58 | a numeric page with limit 10 and order "asc"/"desc" compiles to LIMIT 10, OFFSET (page-1)·10 and the matching direction |
| SalesHookProofs.HookRequestCompiles | frontend/src/hooks/useSalesData.jsx:44-58 | every request the hook sends compiles, fetching the hook's page of ten rows, ascending exactly when the hook says "asc" |
| SalesHookProofs.InitialQuery | frontend/src/hooks/useSalesData.jsx:16-35 | on mount the service sees no search or filter, page 1, limit 10, sortBy date and sortOrder desc |
| SalesHookProofs.InitialFetch | frontend/src/hooks/useSalesData.jsx:16-58 | the first fetch has no WHERE clause and binds nothing; it takes ten rows by date, newest first, from offset 0 |
| SalesHookProofs.FirstPageByDate | backend/src/services/salesService.js:3-58 | a request with no filters for page 1 of 10 by date desc compiles to no clauses, date DESC, LIMIT 10 OFFSET 0 |

## Left out

- Database execution (`pool.query`) and the `Promise.all` around it are parameters of `GetSales`, `None` when a query fails. Nothing is executed and no rows are filtered.
- `parseInt(countResult.rows[0].count)` is taken as the natural number the count query returns.
- `getDistinct`, `getUniqueTags` and `getFilterOptions` are left out. They only read option lists from the database.
- The second service and controller (`sales.service.js`, `sales.controller.js`) are left out. Nothing in the routes used by the dashboard calls them.
- The routing and server set-up files (`index.js` and the route files) are left out.
- `SalesService.SortColumn`: only the own keys of `sortMap` are considered. Inherited object properties such as `constructor` would be truthy in JavaScript, and the model maps them to date.
- `Strings.LowerAscii` lower-cases ASCII letters only. The one comparison that uses it is with "asc".
- Request parameters that Express parses into nested objects are not modelled. A field is absent, a string or an array of strings.
- `Num` has no Infinity and its integers are unbounded. In JavaScript, `parseInt` of a very long digit string gives Infinity, and a page or offset above 2^53 loses precision. Neither is modelled.
- Front-end number and date parsing (`value < 0`, `parseInt`, `new Date`) is passed in as functions. There is no floating point or calendar.
- React effects and the 500 ms debounce are left out, along with the loading, error and options state, and the `fetchSales` HTTP call. `SalesHook.ToQuery` stands for the round trip of a parameter through the URL: numbers come back as their decimal text and parse back to themselves.
- The hook's `params[key] === null` test is left out. No parameter it builds is `null`: the page is a number and every other value is a string.
- `SalesHookProofs.HookRequestCompiles` assumes the filters do not reuse the names page, limit or sortOrder. The hook would send such a filter in place of the fixed parameter.
- The table, statistics cards, search bar and dashboard page are left out. They only display data or forward it to the hook.
- `Pagination.Render` requires a non-zero page size. With `itemsPerPage` 0 the JavaScript page count is Infinity or NaN, which the integer model does not represent. The one caller passes a fixed page size of 10 (frontend/src/pages/Dashboard.jsx line 76).
- An option whose text contains a comma cannot be toggled as a unit. `Toggle` splits the stored value at every comma, as FilterPanel.jsx does, so such an option becomes several choices. `FilterPanelProofs.ToggleFlips` and `FilterPanelProofs.ToggleTwice` therefore state their round trips only for comma-free options.
- The pill's open/closed state, the click-outside listener, the CSS active classes and the "Clear All" button (which sends `{}`) are left out.
