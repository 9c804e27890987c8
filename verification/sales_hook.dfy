/**
 * The dashboard's data hook (`useSalesData`): the page, search text, filters
 * and sort the user has chosen, the handlers that change them, and the query
 * parameters it sends for them. Searching or filtering goes back to page 1;
 * clicking the sorted column again flips ascending to descending, and any
 * other click sorts ascending.
 *
 * The request also travels to the service here: the parameters the hook keeps
 * become the query the service compiles, which shows that the dashboard's own
 * requests always compile and fetch the page the hook is on.
 */
module SalesHook {
  import opened Wrappers
  import opened Strings
  import opened JsMath
  import SalesService

  datatype Sort = Sort(field: string, order: string)

  /** The hook's UI state. Filters are named texts, as the filter bar produces them. */
  datatype HookState = HookState(page: int, search: string, filters: map<string, string>, sort: Sort)

  /** The nine filters the hook starts with, all empty. */
  const FilterNames: set<string> :=
    {"region", "gender", "payment_method", "category", "tags", "minAge", "maxAge", "startDate", "endDate"}

  /** The state on mount: page 1, no search, empty filters, newest first. */
  const Initial: HookState :=
    HookState(1, "", map k | k in FilterNames :: "", Sort("date", "desc"))

  /** A query parameter value: the page and limit are numbers, everything else text. */
  datatype ParamValue = Number(n: int) | Text(s: string)

  type Params = map<string, ParamValue>

  /** The parameters object: the fixed entries, then the filters spread over them. */
  function RawParams(s: HookState): Params
  {
    map["page" := Number(s.page), "limit" := Number(10), "search" := Text(s.search),
        "sortBy" := Text(s.sort.field), "sortOrder" := Text(s.sort.order)]
    + (map k | k in s.filters :: Text(s.filters[k]))
  }

  /** Deleting every entry whose value is the empty string. */
  function Clean(p: Params): (r: Params)
    ensures forall k :: k in r <==> k in p && p[k] != Text("")
    ensures forall k :: k in r ==> r[k] == p[k]
  {
    map k | k in p && p[k] != Text("") :: p[k]
  }

  /** What `loadData` sends. */
  function Request(s: HookState): Params
  {
    Clean(RawParams(s))
  }

  function HandlePageChange(s: HookState, newPage: int): (r: HookState)
    ensures r.page == newPage && r.search == s.search && r.filters == s.filters && r.sort == s.sort
  {
    s.(page := newPage)
  }

  function HandleSearch(s: HookState, query: string): (r: HookState)
    ensures r.search == query && r.page == 1 && r.filters == s.filters && r.sort == s.sort
  {
    s.(search := query, page := 1)
  }

  function HandleFilterChange(s: HookState, newFilters: map<string, string>): (r: HookState)
    ensures r.filters == newFilters && r.page == 1 && r.search == s.search && r.sort == s.sort
  {
    s.(filters := newFilters, page := 1)
  }

  /** `handleSortChange`: the clicked column, descending only when it was already ascending. */
  function HandleSortChange(s: HookState, field: string): (r: HookState)
    ensures r.sort.field == field
    ensures r.sort.order == "desc" <==> s.sort.field == field && s.sort.order == "asc"
    ensures r.sort.order != "desc" ==> r.sort.order == "asc"
    ensures r.page == s.page && r.search == s.search && r.filters == s.filters
  {
    s.(sort := Sort(field, if s.sort.field == field && s.sort.order == "asc" then "desc" else "asc"))
  }

  // ---------------------------------------------------------------------------
  // From the hook's parameters to the service's request

  /** `String(n)` for an integer. */
  function IntText(n: int): string
  {
    if n < 0 then "-" + NatToString(-n) else NatToString(n)
  }

  /** A parameter as the server reads it back: always a single string. */
  function FieldOf(p: Params, key: string): SalesService.Field
  {
    if key !in p then SalesService.Absent
    else match p[key]
      case Text(s) => SalesService.Str(s)
      case Number(n) => SalesService.Str(IntText(n))
  }

  /** `parseInt` of a parameter: a number reads back as itself, text goes through `parseText`. */
  function NumberOf(p: Params, key: string, parseText: string -> Num): Option<Num>
  {
    if key !in p then None
    else match p[key]
      case Number(n) => Some(Finite(n))
      case Text(s) => Some(parseText(s))
  }

  /** The query the service receives for the parameters. */
  function ToQuery(p: Params, parseText: string -> Num): SalesService.QuerySpec
  {
    SalesService.QuerySpec(
      NumberOf(p, "page", parseText), NumberOf(p, "limit", parseText),
      FieldOf(p, "search"), FieldOf(p, "sortBy"), FieldOf(p, "sortOrder"),
      FieldOf(p, "region"), FieldOf(p, "gender"), FieldOf(p, "payment_method"), FieldOf(p, "category"),
      FieldOf(p, "tags"), FieldOf(p, "minAge"), FieldOf(p, "maxAge"), FieldOf(p, "startDate"),
      FieldOf(p, "endDate"))
  }
}

/** Properties of the hook's handlers and of the requests it sends. */
module SalesHookProofs {
  import opened Wrappers
  import opened Strings
  import opened JsMath
  import opened SalesHook
  import SalesService
  import SalesServiceProofs

  /** The sort order is always one of the two the server understands. */
  predicate ValidSort(s: HookState)
  {
    s.sort.order == "asc" || s.sort.order == "desc"
  }

  /** Every handler keeps the sort order valid, starting from the initial state. */
  lemma SortStaysValid(s: HookState, newPage: int, query: string, f: map<string, string>, field: string)
    requires ValidSort(s)
    ensures ValidSort(Initial)
    ensures ValidSort(HandlePageChange(s, newPage))
    ensures ValidSort(HandleSearch(s, query))
    ensures ValidSort(HandleFilterChange(s, f))
    ensures ValidSort(HandleSortChange(s, field))
  {
  }

  /**
   * Clicking the same column twice: from a valid order on that column it comes
   * back to where it was; on a new column it ends up descending.
   */
  lemma SortTwice(s: HookState, field: string)
    requires ValidSort(s)
    ensures var t := HandleSortChange(HandleSortChange(s, field), field);
            && (s.sort.field == field ==> t.sort == s.sort)
            && (s.sort.field != field ==> t.sort == Sort(field, "desc"))
  {
  }

  /** A parameter of the request: a filter when one of that name is set, else the fixed entry. */
  lemma RawLookup(s: HookState, k: string)
    ensures k in s.filters ==> k in RawParams(s) && RawParams(s)[k] == Text(s.filters[k])
    ensures k !in s.filters && k == "page" ==> k in RawParams(s) && RawParams(s)[k] == Number(s.page)
    ensures k !in s.filters && k == "limit" ==> k in RawParams(s) && RawParams(s)[k] == Number(10)
    ensures k !in s.filters && k == "search" ==> k in RawParams(s) && RawParams(s)[k] == Text(s.search)
    ensures k !in s.filters && k == "sortBy" ==> k in RawParams(s) && RawParams(s)[k] == Text(s.sort.field)
    ensures k !in s.filters && k == "sortOrder" ==> k in RawParams(s) && RawParams(s)[k] == Text(s.sort.order)
    ensures k !in s.filters && k !in {"page", "limit", "search", "sortBy", "sortOrder"} ==> k !in RawParams(s)
  {
  }

  /** Filters that are all empty and leave the fixed parameters alone. */
  predicate QuietFilters(s: HookState)
  {
    && s.search == ""
    && (forall k :: k in s.filters ==> s.filters[k] == "")
    && "page" !in s.filters && "limit" !in s.filters && "sortBy" !in s.filters && "sortOrder" !in s.filters
  }

  /**
   * With no search and every filter empty, the request carries only the page,
   * the page size and the sort: empty texts are never sent.
   */
  lemma QuietRequest(s: HookState)
    requires QuietFilters(s) && s.sort.field != "" && s.sort.order != ""
    ensures Request(s)
            == map["page" := Number(s.page), "limit" := Number(10),
                   "sortBy" := Text(s.sort.field), "sortOrder" := Text(s.sort.order)]
  {
    var r := Request(s);
    var e := map["page" := Number(s.page), "limit" := Number(10),
                 "sortBy" := Text(s.sort.field), "sortOrder" := Text(s.sort.order)];
    forall k
      ensures k in r <==> k in e
      ensures k in r ==> r[k] == e[k]
    {
      RawLookup(s, k);
    }
  }

  /** The request on mount: page 1 of 10 rows, by date, newest first, nothing else. */
  lemma InitialRequest()
    ensures Request(Initial)
            == map["page" := Number(1), "limit" := Number(10), "sortBy" := Text("date"), "sortOrder" := Text("desc")]
  {
    assert QuietFilters(Initial);
    QuietRequest(Initial);
  }

  /** A state whose filters leave the page and limit alone. */
  predicate PagingKept(s: HookState)
  {
    "page" !in s.filters && "limit" !in s.filters
  }

  /** The service compiled the query for page `page` of ten rows, ascending exactly for "asc". */
  predicate Fetches(c: Result<SalesService.Compiled, SalesService.Error>, page: int, order: string)
  {
    && c.Ok?
    && c.value.limit == Finite(10)
    && c.value.offset == Finite((page - 1) * 10)
    && (c.value.sortDir == SalesService.Asc <==> order == "asc")
  }

  /**
   * The dashboard's requests always compile, and the server fetches what the
   * hook is showing: the hook's page, ten rows per page, sorted ascending
   * exactly when the hook says "asc".
   */
  lemma HookRequestCompiles(s: HookState, parseText: string -> Num)
    requires ValidSort(s) && PagingKept(s)
    requires "sortOrder" !in s.filters
    ensures Fetches(SalesService.Compile(ToQuery(Request(s), parseText)), s.page, s.sort.order)
  {
    var q := ToQuery(Request(s), parseText);
    RequestFields(s, parseText);
    CompileOrdered(q, s.page, s.sort.order);
  }

  /** The page, limit and sort order reach the service as the hook holds them. */
  lemma RequestFields(s: HookState, parseText: string -> Num)
    requires ValidSort(s) && PagingKept(s)
    requires "sortOrder" !in s.filters
    ensures var q := ToQuery(Request(s), parseText);
            && q.page == Some(Finite(s.page))
            && q.limit == Some(Finite(10))
            && q.sortOrder == SalesService.Str(s.sort.order)
  {
    RawLookup(s, "page");
    RawLookup(s, "limit");
    RawLookup(s, "sortOrder");
  }

  /** Compiling a query with a numeric page, a limit of 10 and an "asc" or "desc" order. */
  lemma CompileOrdered(q: SalesService.QuerySpec, page: int, order: string)
    requires q.page == Some(Finite(page)) && q.limit == Some(Finite(10))
    requires q.sortOrder == SalesService.Str(order) && (order == "asc" || order == "desc")
    ensures Fetches(SalesService.Compile(q), page, order)
  {
    assert LowerAscii("asc") == "asc";
    assert LowerAscii("desc") != "asc" by { assert LowerAscii("desc")[0] == 'd'; }
  }

  /** On mount the service is asked for the first ten rows, newest first, with no WHERE clause. */
  lemma InitialQuery(parseText: string -> Num)
    ensures var q := ToQuery(Request(Initial), parseText);
            && SalesServiceProofs.NoFilters(q)
            && q.page == Some(Finite(1)) && q.limit == Some(Finite(10))
            && q.sortBy == SalesService.Str("date") && q.sortOrder == SalesService.Str("desc")
  {
    InitialRequest();
  }

  /**
   * The first fetch after mount: no WHERE clause and nothing bound, the newest
   * rows first, ten of them from offset 0.
   */
  lemma InitialFetch(parseText: string -> Num)
    ensures var c := SalesService.Compile(ToQuery(Request(Initial), parseText));
            && c.Ok? && c.value.clauses == [] && c.value.params == []
            && c.value.sortField == "date" && c.value.sortDir == SalesService.Desc
            && c.value.limit == Finite(10) && c.value.offset == Finite(0)
  {
    InitialQuery(parseText);
    FirstPageByDate(ToQuery(Request(Initial), parseText));
  }

  lemma FirstPageByDate(q: SalesService.QuerySpec)
    requires SalesServiceProofs.NoFilters(q)
    requires q.page == Some(Finite(1)) && q.limit == Some(Finite(10))
    requires q.sortBy == SalesService.Str("date") && q.sortOrder == SalesService.Str("desc")
    ensures var c := SalesService.Compile(q);
            && c.Ok? && c.value.clauses == [] && c.value.params == []
            && c.value.sortField == "date" && c.value.sortDir == SalesService.Desc
            && c.value.limit == Finite(10) && c.value.offset == Finite(0)
  {
    SalesServiceProofs.NoFiltersNoWhere(q);
    CompileOrdered(q, 1, "desc");
  }
}
