/**
 * The HTTP handler of the sales endpoint (`getSales`). It runs the compiled
 * row and count queries, then answers with the rows and a pagination summary
 * that it computes from the raw request on its own: `parseInt(page) || 1`,
 * `parseInt(limit) || 10`, and `Math.ceil(total / limit)` pages. Any exception,
 * from compiling or from either query, becomes a 500 "Server Error" answer.
 *
 * The database is a pair of function parameters: the rows a query returns, and
 * the count the count query returns, each `None` when the query fails.
 */
module SalesController {
  import opened Wrappers
  import opened JsMath
  import opened SalesService

  /** The `pagination` object of a successful answer. */
  datatype PageInfo = PageInfo(totalItems: int, totalPages: int, currentPage: int, itemsPerPage: int)

  datatype Body<Row> =
    | Success(data: seq<Row>, pagination: PageInfo)
    | Failure(message: string)

  datatype Response<Row> = Response(status: nat, body: Body<Row>)

  /** `parseInt` of a query parameter; a missing parameter parses as NaN. */
  function Parsed(x: Option<Num>): Num
  {
    match x
    case None => NaN
    case Some(n) => n
  }

  /** `parseInt(req.query.page) || 1`. */
  function CurrentPage(q: QuerySpec): (p: int)
    ensures p != 0
    ensures q.page.Some? && q.page.value.Finite? && q.page.value.v != 0 ==> p == q.page.value.v
    ensures !(q.page.Some? && q.page.value.Finite? && q.page.value.v != 0) ==> p == 1
  {
    OrElse(Parsed(q.page), 1)
  }

  /** `parseInt(req.query.limit) || 10`. */
  function ItemsPerPage(q: QuerySpec): (n: int)
    ensures n != 0
    ensures q.limit.Some? && q.limit.value.Finite? && q.limit.value.v != 0 ==> n == q.limit.value.v
    ensures !(q.limit.Some? && q.limit.value.Finite? && q.limit.value.v != 0) ==> n == 10
  {
    OrElse(Parsed(q.limit), 10)
  }

  /** `Math.ceil(total / limit)`: the least page count whose pages hold every item. */
  function TotalPages(total: nat, limit: int): (t: int)
    requires limit != 0
    ensures limit > 0 ==> (t - 1) * limit < total <= t * limit
    ensures limit > 0 ==> t >= 0 && (t == 0 <==> total == 0)
    ensures limit < 0 ==> t * limit <= total < (t - 1) * limit
    ensures limit < 0 ==> t <= 0
  {
    CeilDiv(total, limit)
  }

  const ServerError: string := "Server Error"

  /**
   * `getSales`: compile, run both queries, and answer. The answer is a 500
   * exactly when compiling throws or either query fails; otherwise it carries
   * the fetched rows and the count as they came back, and the summary the
   * handler computes from the request's own page and limit.
   */
  function GetSales<Row>(q: QuerySpec, fetchRows: SqlQuery -> Option<seq<Row>>, fetchCount: SqlQuery -> Option<nat>)
    : (r: Response<Row>)
    ensures r.status == 500 <==>
              Compile(q).Err? || fetchRows(Compile(q).value.dataQuery).None? || fetchCount(Compile(q).value.countQuery).None?
    ensures r.status == 500 ==> r.body == Failure(ServerError)
    ensures r.status != 500 ==>
              && r.status == 200 && r.body.Success?
              && r.body.data == fetchRows(Compile(q).value.dataQuery).value
              && r.body.pagination.totalItems == fetchCount(Compile(q).value.countQuery).value
    ensures r.status != 500 ==>
              var total := fetchCount(Compile(q).value.countQuery).value;
              r.body.pagination == PageInfo(total, TotalPages(total, ItemsPerPage(q)), CurrentPage(q), ItemsPerPage(q))
  {
    match Compile(q)
    case Err(_) => Response(500, Failure(ServerError))
    case Ok(c) =>
      match (fetchRows(c.dataQuery), fetchCount(c.countQuery))
      case (Some(rows), Some(total)) =>
        var limit := ItemsPerPage(q);
        Response(200, Success(rows, PageInfo(total, TotalPages(total, limit), CurrentPage(q), limit)))
      case _ => Response(500, Failure(ServerError))
  }
}

/** What the pagination summary promises, and where it parts from the query that was run. */
module SalesControllerProofs {
  import opened Wrappers
  import opened JsMath
  import opened SalesService
  import opened SalesController

  /**
   * For a positive page count the summary is consistent: there are enough
   * pages for every item, the last page is not empty, and a page number is in
   * range exactly when one of its items exists.
   */
  lemma PaginationConsistent<Row>(q: QuerySpec, fetchRows: SqlQuery -> Option<seq<Row>>, fetchCount: SqlQuery -> Option<nat>)
    requires GetSales(q, fetchRows, fetchCount).status == 200
    requires ItemsPerPage(q) > 0
    ensures var p := GetSales(q, fetchRows, fetchCount).body.pagination;
            && p.itemsPerPage == ItemsPerPage(q)
            && p.totalPages >= 0
            && (p.totalPages - 1) * p.itemsPerPage < p.totalItems <= p.totalPages * p.itemsPerPage
            && forall k :: HoldsItems(p, k) <==> 1 <= k <= p.totalPages
  {
    var p := GetSales(q, fetchRows, fetchCount).body.pagination;
    var n := p.itemsPerPage;
    forall k | 1 <= k
      ensures HoldsItems(p, k) <==> k <= p.totalPages
    {
      if k <= p.totalPages {
        MonotoneProduct(k - 1, p.totalPages - 1, n);
      } else {
        MonotoneProduct(p.totalPages, k - 1, n);
      }
    }
  }

  /** Page `k` (counting from 1) starts before the last item. */
  predicate HoldsItems(p: PageInfo, k: int)
  {
    1 <= k && (k - 1) * p.itemsPerPage < p.totalItems
  }

  lemma MonotoneProduct(a: int, b: int, n: int)
    requires a <= b && n > 0
    ensures a * n <= b * n
  {
    assert b * n - a * n == (b - a) * n;
  }

  /** The page count is the only one with the bracketing property. */
  lemma TotalPagesUnique(total: nat, limit: int, t: int)
    requires limit > 0 && (t - 1) * limit < total <= t * limit
    ensures TotalPages(total, limit) == t
  {
    CeilDivUnique(total, limit, t);
  }

  lemma TotalPagesExamples()
    ensures TotalPages(0, 10) == 0
    ensures TotalPages(1, 10) == 1
    ensures TotalPages(10, 10) == 1
    ensures TotalPages(11, 10) == 2
    ensures TotalPages(95, 10) == 10
  {
    TotalPagesUnique(0, 10, 0);
    TotalPagesUnique(1, 10, 1);
    TotalPagesUnique(10, 10, 1);
    TotalPagesUnique(11, 10, 2);
    TotalPagesUnique(95, 10, 10);
  }

  /**
   * For a positive page and a positive limit the summary describes the rows
   * that were fetched: the row query was bound the reported page size as LIMIT
   * and skipped exactly the items of the earlier pages.
   */
  lemma SummaryMatchesQuery<Row>(q: QuerySpec, fetchRows: SqlQuery -> Option<seq<Row>>, fetchCount: SqlQuery -> Option<nat>)
    requires GetSales(q, fetchRows, fetchCount).status == 200
    requires q.page.None? || (q.page.value.Finite? && q.page.value.v > 0)
    requires q.limit.None? || (q.limit.value.Finite? && q.limit.value.v > 0)
    ensures var p := GetSales(q, fetchRows, fetchCount).body.pagination;
            var c := Compile(q).value;
            && c.limit == Finite(p.itemsPerPage)
            && c.offset == Finite((p.currentPage - 1) * p.itemsPerPage)
            && c.dataQuery.params[|c.params|] == NumberValue(Finite(p.itemsPerPage))
            && c.dataQuery.params[|c.params| + 1] == NumberValue(Finite((p.currentPage - 1) * p.itemsPerPage))
  {
  }

  /**
   * Where the summary can part from the query: a page of 0 is fetched with a
   * negative OFFSET but reported as page 1, a page that does not parse is
   * fetched with OFFSET NaN but reported as page 1, and a limit of 0 or one
   * that does not parse is fetched as LIMIT 0 or LIMIT NaN but reported as 10
   * per page.
   */
  lemma SummaryDiverges(q: QuerySpec)
    requires Compile(q).Ok?
    ensures q.page == Some(Finite(0)) && LimitNumber(q).Finite? ==>
              CurrentPage(q) == 1 && Compile(q).value.offset == Finite(-LimitNumber(q).v)
    ensures q.page == Some(NaN) ==> CurrentPage(q) == 1 && Compile(q).value.offset == NaN
    ensures q.limit == Some(Finite(0)) ==> ItemsPerPage(q) == 10 && Compile(q).value.limit == Finite(0)
    ensures q.limit == Some(NaN) ==> ItemsPerPage(q) == 10 && Compile(q).value.limit == NaN
  {
  }

  /** A `sortOrder` given twice makes compiling throw, which the handler turns into a 500. */
  lemma RepeatedSortOrderFails<Row>(q: QuerySpec, fetchRows: SqlQuery -> Option<seq<Row>>, fetchCount: SqlQuery -> Option<nat>)
    requires q.sortOrder.Arr?
    ensures GetSales(q, fetchRows, fetchCount) == Response(500, Failure("Server Error"))
  {
  }
}
