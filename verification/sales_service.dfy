/**
 * The query compiler behind the sales endpoint (`getSalesData`). It turns the
 * loosely typed request parameters into WHERE clauses with numbered placeholders
 * `$1, $2, ...`, the list of values bound to them, an ORDER BY column and
 * direction taken from an allow-list, and the LIMIT/OFFSET pair. The row query
 * and the count query share the WHERE text and its parameters.
 *
 * Executing the queries is not modelled: the compiled queries are the output.
 */
module SalesService {
  import opened Wrappers
  import opened Strings
  import opened JsMath

  /** A request parameter as the HTTP layer hands it over: missing, one string, or repeated. */
  datatype Field = Absent | Str(s: string) | Arr(items: seq<string>)

  /** JavaScript truthiness of a parameter: missing and "" are falsy, every array is truthy. */
  predicate Truthy(f: Field)
  {
    match f
    case Absent => false
    case Str(s) => s != ""
    case Arr(_) => true
  }

  /** A destructuring default `x = d`: only a missing parameter takes it. */
  function OrDefault(f: Field, d: string): (r: Field)
    ensures !r.Absent?
    ensures f.Absent? ==> r == Str(d)
    ensures !f.Absent? ==> r == f
  {
    if f.Absent? then Str(d) else f
  }

  /** String conversion of a present parameter (template literal, property key): arrays join with ",". */
  function AsText(f: Field): string
    requires !f.Absent?
  {
    match f
    case Str(s) => s
    case Arr(xs) => Join(xs, ",")
  }

  /** The multi-value reading: an array is taken as it is, a string is split on ",". */
  function ValuesOf(f: Field): seq<string>
    requires !f.Absent?
  {
    match f
    case Str(s) => Split(s, ',')
    case Arr(xs) => xs
  }

  /** The request's query string; `page` and `limit` are given as `parseInt` results. */
  datatype QuerySpec = QuerySpec(
    page: Option<Num>,
    limit: Option<Num>,
    search: Field,
    sortBy: Field,
    sortOrder: Field,
    region: Field,
    gender: Field,
    paymentMethod: Field,
    category: Field,
    tags: Field,
    minAge: Field,
    maxAge: Field,
    startDate: Field,
    endDate: Field)

  /** A value bound to a placeholder. */
  datatype Value = TextValue(s: string) | ListValue(items: seq<string>) | NumberValue(n: Num)

  /** One WHERE clause, by the placeholder numbers it uses. */
  datatype Clause =
    | Search(idx: nat)
    | In(column: string, first: nat, count: nat)
    | TagsLike(first: nat, count: nat)
    | Cmp(column: string, op: string, idx: nat)

  /** SQL text as literal pieces and placeholders; `Ph(k)` is written `$k`. */
  datatype Token = Lit(text: string) | Ph(index: nat)

  datatype SortDir = Asc | Desc

  /** A parameterised query: its text and the values for `$1, $2, ...`. */
  datatype SqlQuery = SqlQuery(text: seq<Token>, params: seq<Value>)

  /** Everything `getSalesData` computes before it talks to the database. */
  datatype Compiled = Compiled(
    clauses: seq<Clause>,
    params: seq<Value>,
    nextIndex: nat,
    whereSql: seq<Token>,
    sortField: string,
    sortDir: SortDir,
    limit: Num,
    offset: Num,
    dataQuery: SqlQuery,
    countQuery: SqlQuery)

  /** A JavaScript exception raised while compiling. */
  datatype Error = TypeError(message: string)

  /** What a clause means once its placeholders are replaced by their bound values. */
  datatype Condition =
    | NameOrPhoneLike(pattern: Value)
    | ColumnIn(column: string, values: seq<Value>)
    | TagsLikeAny(patterns: seq<Value>)
    | Compare(column: string, op: string, bound: Value)

  // ---------------------------------------------------------------------------
  // Placeholder bookkeeping

  /** The integers lo, lo+1, ..., hi-1. */
  function Range(lo: nat, hi: nat): (r: seq<nat>)
    requires lo <= hi
    ensures |r| == hi - lo
    ensures forall i :: 0 <= i < |r| ==> r[i] == lo + i
  {
    seq(hi - lo, i requires 0 <= i < hi - lo => lo + i)
  }

  function First(c: Clause): nat
  {
    match c
    case Search(k) => k
    case In(_, f, _) => f
    case TagsLike(f, _) => f
    case Cmp(_, _, k) => k
  }

  /** How many parameters a clause consumes. */
  function Width(c: Clause): nat
  {
    match c
    case In(_, _, n) => n
    case TagsLike(_, n) => n
    case _ => 1
  }

  /** The placeholder numbers a clause owns, each once. */
  function Slots(c: Clause): seq<nat>
  {
    Range(First(c), First(c) + Width(c))
  }

  /** The placeholder numbers owned by a list of clauses, in order. */
  function AllSlots(cs: seq<Clause>): seq<nat>
  {
    if |cs| == 0 then [] else AllSlots(cs[..|cs| - 1]) + Slots(cs[|cs| - 1])
  }

  /** Every placeholder of `c` names one of `n` parameters. */
  predicate Within(c: Clause, n: nat)
  {
    1 <= First(c) && First(c) + Width(c) <= n + 1
  }

  /** Substitutes the bound values for the placeholders of a clause. */
  function Resolve(c: Clause, params: seq<Value>): Condition
    requires Within(c, |params|)
  {
    match c
    case Search(k) => NameOrPhoneLike(params[k - 1])
    case In(col, f, n) => ColumnIn(col, params[f - 1 .. f - 1 + n])
    case TagsLike(f, n) => TagsLikeAny(params[f - 1 .. f - 1 + n])
    case Cmp(col, op, k) => Compare(col, op, params[k - 1])
  }

  // ---------------------------------------------------------------------------
  // Rendering

  /** `$f, $f+1, ...` with ", " between, as the IN list writes them. */
  function PlaceholderList(f: nat, n: nat): seq<Token>
    decreases n
  {
    if n == 0 then []
    else if n == 1 then [Ph(f)]
    else [Ph(f), Lit(", ")] + PlaceholderList(f + 1, n - 1)
  }

  /** `tags ILIKE $f OR tags ILIKE $f+1 OR ...`. */
  function TagConditions(f: nat, n: nat): seq<Token>
    decreases n
  {
    if n == 0 then []
    else if n == 1 then [Lit("tags ILIKE "), Ph(f)]
    else [Lit("tags ILIKE "), Ph(f), Lit(" OR ")] + TagConditions(f + 1, n - 1)
  }

  function ClauseTokens(c: Clause): seq<Token>
  {
    match c
    case Search(k) =>
      [Lit("(customer_name ILIKE "), Ph(k), Lit(" OR phone_number ILIKE "), Ph(k), Lit(")")]
    case In(col, f, n) => [Lit(col + " IN (")] + PlaceholderList(f, n) + [Lit(")")]
    case TagsLike(f, n) => [Lit("(")] + TagConditions(f, n) + [Lit(")")]
    case Cmp(col, op, k) => [Lit(col + " " + op + " "), Ph(k)]
  }

  /** The clauses joined with " AND ". */
  function JoinClauses(cs: seq<Clause>): seq<Token>
  {
    if |cs| == 0 then []
    else if |cs| == 1 then ClauseTokens(cs[0])
    else JoinClauses(cs[..|cs| - 1]) + [Lit(" AND ")] + ClauseTokens(cs[|cs| - 1])
  }

  /** `whereSQL`: "WHERE " and the joined clauses, or nothing at all. */
  function WhereTokens(cs: seq<Clause>): seq<Token>
  {
    if |cs| == 0 then [] else [Lit("WHERE ")] + JoinClauses(cs)
  }

  function TokenText(t: Token): string
  {
    match t
    case Lit(s) => s
    case Ph(k) => "$" + NatToString(k)
  }

  /** The SQL string the tokens spell. */
  function ToSql(ts: seq<Token>): string
  {
    if |ts| == 0 then "" else TokenText(ts[0]) + ToSql(ts[1..])
  }

  /** The placeholder numbers of a text, in order of appearance, repeats kept. */
  function Placeholders(ts: seq<Token>): seq<nat>
  {
    if |ts| == 0 then [] else TokenPlaceholders(ts[0]) + Placeholders(ts[1..])
  }

  /** The placeholder a single token contributes. */
  function TokenPlaceholders(t: Token): seq<nat>
  {
    if t.Ph? then [t.index] else []
  }

  // ---------------------------------------------------------------------------
  // The WHERE builder, step by step as the source appends clauses and values

  /** The builder state: clauses so far, values so far, and `paramIndex`. */
  datatype Builder = Builder(clauses: seq<Clause>, params: seq<Value>, next: nat)

  function Pattern(s: string): string
  {
    "%" + s + "%"
  }

  function TextValues(vs: seq<string>): (r: seq<Value>)
    ensures |r| == |vs|
    ensures forall i :: 0 <= i < |vs| ==> r[i] == TextValue(vs[i])
  {
    seq(|vs|, i requires 0 <= i < |vs| => TextValue(vs[i]))
  }

  function PatternValues(vs: seq<string>): (r: seq<Value>)
    ensures |r| == |vs|
    ensures forall i :: 0 <= i < |vs| ==> r[i] == TextValue(Pattern(vs[i]))
  {
    seq(|vs|, i requires 0 <= i < |vs| => TextValue(Pattern(vs[i])))
  }

  /** A range bound is bound as it arrived: a string, or the array itself. */
  function BoundValue(f: Field): Value
    requires !f.Absent?
  {
    match f
    case Str(s) => TextValue(s)
    case Arr(xs) => ListValue(xs)
  }

  function AddSearch(b: Builder, search: Field): Builder
  {
    if Truthy(search) then
      Builder(b.clauses + [Search(b.next)], b.params + [TextValue(Pattern(AsText(search)))], b.next + 1)
    else b
  }

  /** `addFilter(field, column)`. */
  function AddFilter(b: Builder, field: Field, column: string): Builder
  {
    if Truthy(field) then
      var vs := ValuesOf(field);
      Builder(b.clauses + [In(column, b.next, |vs|)], b.params + TextValues(vs), b.next + |vs|)
    else b
  }

  function AddTags(b: Builder, tags: Field): Builder
  {
    if Truthy(tags) then
      var vs := ValuesOf(tags);
      Builder(b.clauses + [TagsLike(b.next, |vs|)], b.params + PatternValues(vs), b.next + |vs|)
    else b
  }

  function AddRange(b: Builder, field: Field, column: string, op: string): Builder
  {
    if Truthy(field) then
      Builder(b.clauses + [Cmp(column, op, b.next)], b.params + [BoundValue(field)], b.next + 1)
    else b
  }

  /** One of the calls after the search: `addFilter`, the tags block, or a range check. */
  datatype Step =
    | FilterOn(field: Field, column: string)
    | TagsOn(field: Field)
    | RangeOn(field: Field, column: string, op: string)

  function Apply(b: Builder, s: Step): Builder
  {
    match s
    case FilterOn(f, col) => AddFilter(b, f, col)
    case TagsOn(f) => AddTags(b, f)
    case RangeOn(f, col, op) => AddRange(b, f, col, op)
  }

  /** The steps applied one after the other. */
  function Run(b: Builder, steps: seq<Step>): Builder
    decreases |steps|
  {
    if |steps| == 0 then b else Run(Apply(b, steps[0]), steps[1..])
  }

  /** The calls after the search, in the source's fixed order. */
  function Steps(q: QuerySpec): seq<Step>
  {
    [ FilterOn(q.region, "customer_region"),
      FilterOn(q.gender, "gender"),
      FilterOn(q.paymentMethod, "payment_method"),
      FilterOn(q.category, "product_category"),
      TagsOn(q.tags),
      RangeOn(q.minAge, "age", ">="),
      RangeOn(q.maxAge, "age", "<="),
      RangeOn(q.startDate, "date", ">="),
      RangeOn(q.endDate, "date", "<=") ]
  }

  /** The WHERE builder run over the request: the search, then the steps. */
  function Where(q: QuerySpec): Builder
  {
    Run(AddSearch(Builder([], [], 1), q.search), Steps(q))
  }

  // ---------------------------------------------------------------------------
  // Reference meaning: conditions with their values, no placeholder numbers

  function SearchConds(f: Field): seq<Condition>
  {
    if Truthy(f) then [NameOrPhoneLike(TextValue(Pattern(AsText(f))))] else []
  }

  function FilterConds(f: Field, column: string): seq<Condition>
  {
    if Truthy(f) then [ColumnIn(column, TextValues(ValuesOf(f)))] else []
  }

  function TagConds(f: Field): seq<Condition>
  {
    if Truthy(f) then [TagsLikeAny(PatternValues(ValuesOf(f)))] else []
  }

  function RangeConds(f: Field, column: string, op: string): seq<Condition>
  {
    if Truthy(f) then [Compare(column, op, BoundValue(f))] else []
  }

  function StepConds(s: Step): seq<Condition>
  {
    match s
    case FilterOn(f, col) => FilterConds(f, col)
    case TagsOn(f) => TagConds(f)
    case RangeOn(f, col, op) => RangeConds(f, col, op)
  }

  function AllStepConds(steps: seq<Step>): seq<Condition>
  {
    if |steps| == 0 then [] else StepConds(steps[0]) + AllStepConds(steps[1..])
  }

  /** The conditions a request asks for, ANDed, in the order the source emits them. */
  function Intended(q: QuerySpec): seq<Condition>
  {
    SearchConds(q.search) + AllStepConds(Steps(q))
  }

  // ---------------------------------------------------------------------------
  // Sorting and paging

  /** The sort allow-list: the only column names that reach ORDER BY. */
  const SortColumns: set<string> := {"date", "quantity", "customer_name"}

  /** `sortMap[sortBy] || 'date'`. */
  function SortColumn(key: string): (col: string)
    ensures col in SortColumns
    ensures key in SortColumns ==> col == key
    ensures key !in SortColumns ==> col == "date"
  {
    if key in SortColumns then key else "date"
  }

  /** `sortOrder.toLowerCase() === 'asc' ? 'ASC' : 'DESC'`. */
  function SortDirection(order: string): SortDir
  {
    if LowerAscii(order) == "asc" then Asc else Desc
  }

  function DirKeyword(d: SortDir): string
  {
    match d
    case Asc => "ASC"
    case Desc => "DESC"
  }

  /** `parseInt(x)` after the destructuring default `d`. */
  function ParsedOr(x: Option<Num>, d: int): Num
  {
    match x
    case None => Finite(d)
    case Some(n) => n
  }

  function PageNumber(q: QuerySpec): Num
  {
    ParsedOr(q.page, 1)
  }

  function LimitNumber(q: QuerySpec): Num
  {
    ParsedOr(q.limit, 10)
  }

  const CountPrefix: string := "SELECT COUNT(*) FROM sales "

  function DataQueryText(whereSql: seq<Token>, field: string, dir: SortDir, next: nat): seq<Token>
  {
    [Lit("\n    SELECT * FROM sales\n    ")] + whereSql
    + [Lit("\n    ORDER BY " + field + " " + DirKeyword(dir) + "\n    LIMIT "),
       Ph(next), Lit(" OFFSET "), Ph(next + 1), Lit("\n  ")]
  }

  /**
   * `getSalesData` up to the database call. The only exception it can raise
   * here is calling `toLowerCase` on a repeated `sortOrder` parameter.
   */
  function Compile(q: QuerySpec): (r: Result<Compiled, Error>)
    ensures r.Err? <==> q.sortOrder.Arr?
    ensures r.Ok? ==> r.value.sortField in SortColumns
    ensures r.Ok? && AsText(OrDefault(q.sortBy, "date")) in SortColumns ==>
              r.value.sortField == AsText(OrDefault(q.sortBy, "date"))
    ensures r.Ok? && AsText(OrDefault(q.sortBy, "date")) !in SortColumns ==> r.value.sortField == "date"
    ensures r.Ok? ==>
              (r.value.sortDir == Asc <==> LowerAscii(AsText(OrDefault(q.sortOrder, "desc"))) == "asc")
    ensures r.Ok? ==> r.value.countQuery == SqlQuery([Lit(CountPrefix)] + r.value.whereSql, r.value.params)
    ensures r.Ok? ==> r.value.dataQuery.params == r.value.params + [NumberValue(r.value.limit), NumberValue(r.value.offset)]
    ensures r.Ok? ==> r.value.limit == LimitNumber(q)
    ensures r.Ok? ==> (r.value.offset.Finite? <==> PageNumber(q).Finite? && LimitNumber(q).Finite?)
    ensures r.Ok? && r.value.offset.Finite? ==> r.value.offset.v == (PageNumber(q).v - 1) * LimitNumber(q).v
  {
    var b := Where(q);
    var order := OrDefault(q.sortOrder, "desc");
    if order.Arr? then
      Err(TypeError("sortOrder.toLowerCase is not a function"))
    else
      var field := SortColumn(AsText(OrDefault(q.sortBy, "date")));
      var dir := SortDirection(order.s);
      var limit := LimitNumber(q);
      var offset := Mul(Sub(PageNumber(q), Finite(1)), limit);
      var whereSql := WhereTokens(b.clauses);
      Ok(Compiled(
           b.clauses, b.params, b.next, whereSql, field, dir, limit, offset,
           SqlQuery(DataQueryText(whereSql, field, dir, b.next), b.params + [NumberValue(limit), NumberValue(offset)]),
           SqlQuery([Lit(CountPrefix)] + whereSql, b.params)))
  }
}
