/** The public listing endpoint `GET /api/properties`: validation of the
    query parameters, the `where`/`orderBy`/`skip`/`take` description handed
    to the database, the page count of the response, and the split between
    a 400 answer for invalid parameters and a 500 answer for any other
    failure. The database is a parameter: it receives the query description
    and answers with rows and a count, or fails. */
module PropertiesRoute {
  import opened Wrappers
  import opened Text
  import opened Property

  /** A query parameter after `Number(...)` coercion: an integer, or NaN.
      Fractional numbers are not modelled. */
  datatype RawNumber = Numeric(n: int) | NotANumber

  /** The parameters of the request URL; `None` when the parameter is
      absent. Numeric parameters arrive already coerced. */
  datatype RawParams = RawParams(
    page: Option<RawNumber>,
    limit: Option<RawNumber>,
    operation: Option<string>,
    types: Option<string>,
    currency: Option<string>,
    minPrice: Option<RawNumber>,
    maxPrice: Option<RawNumber>,
    localidadId: Option<string>,
    featured: Option<string>,
    sort: Option<string>)

  /** The four values `sort` may take. */
  datatype SortOption = PriceAsc | PriceDesc | CreatedAtAsc | CreatedAtDesc

  function SortField(s: SortOption): string {
    match s
    case PriceAsc => "price"
    case PriceDesc => "price"
    case CreatedAtAsc => "createdAt"
    case CreatedAtDesc => "createdAt"
  }

  function SortDirection(s: SortOption): string {
    match s
    case PriceAsc => "asc"
    case PriceDesc => "desc"
    case CreatedAtAsc => "asc"
    case CreatedAtDesc => "desc"
  }

  function SortOptionName(s: SortOption): string {
    match s
    case PriceAsc => "price_asc"
    case PriceDesc => "price_desc"
    case CreatedAtAsc => "createdAt_asc"
    case CreatedAtDesc => "createdAt_desc"
  }

  function ParseSortOption(s: string): (r: Option<SortOption>)
    ensures r.Some? ==> SortOptionName(r.value) == s
    ensures r.None? ==> forall o: SortOption :: SortOptionName(o) != s
  {
    if s == "price_asc" then Some(PriceAsc)
    else if s == "price_desc" then Some(PriceDesc)
    else if s == "createdAt_asc" then Some(CreatedAtAsc)
    else if s == "createdAt_desc" then Some(CreatedAtDesc)
    else None
  }

  /** The parameters once the schema has accepted them. */
  datatype Query = Query(
    page: int,
    limit: int,
    operation: Option<TransactionType>,
    types: Option<string>,
    currency: Option<Currency>,
    minPrice: Option<int>,
    maxPrice: Option<int>,
    localidadId: Option<string>,
    featured: Option<bool>,
    sort: Option<SortOption>)

  const DefaultPage := 1
  const DefaultLimit := 12
  const MaxLimit := 50

  /** A schema issue, naming the parameter it is about. */
  datatype Issue = Issue(path: string)

  // ---------------------------------------------------------------------
  // The schema
  // ---------------------------------------------------------------------

  /** `z.coerce.number().min(lo)` with an optional `max(hi)` and a default:
      `None` for an issue. */
  function CoerceBounded(raw: Option<RawNumber>, lo: int, hi: Option<int>, default: int): (r: Option<int>)
    ensures r.Some? <==> raw.None? || (raw.value.Numeric? && lo <= raw.value.n && (hi.None? || raw.value.n <= hi.value))
    ensures r.Some? ==> r.value == (if raw.None? then default else raw.value.n)
  {
    match raw
    case None => Some(default)
    case Some(NotANumber) => None
    case Some(Numeric(n)) =>
      if n < lo || (hi.Some? && n > hi.value) then None else Some(n)
  }

  /** `.optional()` around a field parser: an absent value is accepted as
      absent, a present one must parse; the outer `None` is an issue. */
  function OptionalNumber(raw: Option<RawNumber>): (r: Option<Option<int>>)
    ensures r.Some? <==> raw.None? || raw.value.Numeric?
    ensures r.Some? ==> r.value == (if raw.None? then None else Some(raw.value.n))
  {
    match raw
    case None => Some(None)
    case Some(NotANumber) => None
    case Some(Numeric(n)) => Some(Some(n))
  }

  function OptionalEnum<T>(raw: Option<string>, parse: string -> Option<T>): (r: Option<Option<T>>)
    ensures r.Some? <==> raw.None? || parse(raw.value).Some?
    ensures r.Some? ==> r.value == (if raw.None? then None else parse(raw.value))
  {
    match raw
    case None => Some(None)
    case Some(s) => if parse(s).Some? then Some(parse(s)) else None
  }

  /** `z.coerce.boolean()`: `Boolean(s)`, true exactly for a non-empty
      string. */
  function CoerceBoolean(s: string): bool {
    s != ""
  }

  function IssueIf(bad: bool, path: string): (r: seq<Issue>)
    ensures r == [] <==> !bad
  {
    if bad then [Issue(path)] else []
  }

  /** The issues `querySchema` reports, in the order of its fields. */
  function SchemaIssues(raw: RawParams): seq<Issue> {
    IssueIf(CoerceBounded(raw.page, 1, None, DefaultPage).None?, "page")
    + IssueIf(CoerceBounded(raw.limit, 1, Some(MaxLimit), DefaultLimit).None?, "limit")
    + IssueIf(OptionalEnum(raw.operation, ParseTransactionType).None?, "operation")
    + IssueIf(OptionalEnum(raw.currency, ParseCurrency).None?, "currency")
    + IssueIf(OptionalNumber(raw.minPrice).None?, "minPrice")
    + IssueIf(OptionalNumber(raw.maxPrice).None?, "maxPrice")
    + IssueIf(OptionalEnum(raw.sort, ParseSortOption).None?, "sort")
  }

  /** A number parameter the schema accepts: absent, or an integer within
      the bounds. */
  predicate NumberAccepted(raw: Option<RawNumber>, lo: int, hi: int) {
    raw.None? || (raw.value.Numeric? && lo <= raw.value.n <= hi)
  }

  /** Every parameter is one the schema accepts. */
  predicate Acceptable(raw: RawParams) {
    && (raw.page.None? || (raw.page.value.Numeric? && raw.page.value.n >= 1))
    && NumberAccepted(raw.limit, 1, MaxLimit)
    && (raw.operation.None? || ParseTransactionType(raw.operation.value).Some?)
    && (raw.currency.None? || ParseCurrency(raw.currency.value).Some?)
    && (raw.minPrice.None? || raw.minPrice.value.Numeric?)
    && (raw.maxPrice.None? || raw.maxPrice.value.Numeric?)
    && (raw.sort.None? || ParseSortOption(raw.sort.value).Some?)
  }

  /** `querySchema.parse(params)`: the typed query, or the issues found. */
  function ParseQuery(raw: RawParams): (r: Result<Query, seq<Issue>>)
    ensures r.Success? <==> Acceptable(raw)
    ensures r.Failure? ==> r.error != []
    ensures r.Success? ==> 1 <= r.value.page && 1 <= r.value.limit <= MaxLimit
    ensures r.Success? && raw.page.None? ==> r.value.page == DefaultPage
    ensures r.Success? && raw.limit.None? ==> r.value.limit == DefaultLimit
    ensures r.Success? && raw.page.Some? ==> r.value.page == raw.page.value.n
    ensures r.Success? && raw.limit.Some? ==> r.value.limit == raw.limit.value.n
    ensures r.Success? ==> r.value.types == raw.types && r.value.localidadId == raw.localidadId
    ensures r.Success? ==> (r.value.featured.Some? <==> raw.featured.Some?)
    ensures r.Success? && raw.featured.Some? ==> (r.value.featured.value <==> raw.featured.value != "")
    ensures r.Success? && raw.operation.Some? ==>
      r.value.operation.Some? && TransactionTypeName(r.value.operation.value) == raw.operation.value
    ensures r.Success? && raw.sort.Some? ==>
      r.value.sort.Some? && SortOptionName(r.value.sort.value) == raw.sort.value
    ensures r.Success? && raw.currency.Some? ==>
      r.value.currency.Some? && CurrencyName(r.value.currency.value) == raw.currency.value
    ensures r.Success? ==> (raw.operation.None? <==> r.value.operation.None?)
    ensures r.Success? ==> (raw.currency.None? <==> r.value.currency.None?)
    ensures r.Success? ==> (raw.sort.None? <==> r.value.sort.None?)
    ensures r.Success? ==> (r.value.minPrice.Some? <==> raw.minPrice.Some?)
    ensures r.Success? ==> (r.value.maxPrice.Some? <==> raw.maxPrice.Some?)
    ensures r.Success? && raw.minPrice.Some? ==> r.value.minPrice == Some(raw.minPrice.value.n)
    ensures r.Success? && raw.maxPrice.Some? ==> r.value.maxPrice == Some(raw.maxPrice.value.n)
  {
    var issues := SchemaIssues(raw);
    if issues != [] then Failure(issues)
    else
      Success(Query(
        CoerceBounded(raw.page, 1, None, DefaultPage).value,
        CoerceBounded(raw.limit, 1, Some(MaxLimit), DefaultLimit).value,
        OptionalEnum(raw.operation, ParseTransactionType).value,
        raw.types,
        OptionalEnum(raw.currency, ParseCurrency).value,
        OptionalNumber(raw.minPrice).value,
        OptionalNumber(raw.maxPrice).value,
        raw.localidadId,
        if raw.featured.Some? then Some(CoerceBoolean(raw.featured.value)) else None,
        OptionalEnum(raw.sort, ParseSortOption).value))
  }

  // ---------------------------------------------------------------------
  // The query description
  // ---------------------------------------------------------------------

  /** `where.price`: its `gte` and `lte` members, each possibly absent. */
  datatype PriceRange = PriceRange(gte: Option<int>, lte: Option<int>)

  /** The `where` record; an absent member is `None`. */
  datatype Where = Where(
    published: bool,
    transactionType: Option<TransactionType>,
    propertyType: Option<seq<PropertyType>>,
    currency: Option<Currency>,
    price: Option<PriceRange>,
    localidadId: Option<string>,
    featured: Option<bool>)

  datatype OrderBy = OrderBy(field: string, direction: string)

  datatype ListingQuery = ListingQuery(where: Where, orderBy: OrderBy, skip: int, take: int)

  /** The valid property types among `parts`, in their order
      (`filter(t => Object.values(PropertyType).includes(t))`). */
  function FilterTypes(parts: seq<string>): seq<PropertyType>
    decreases |parts|
  {
    if parts == [] then []
    else
      var rest := FilterTypes(parts[1..]);
      match ParsePropertyType(parts[0])
      case Some(t) => [t] + rest
      case None => rest
  }

  /** A type is kept exactly when its value is one of the parts. */
  lemma {:induction false} FilterTypesMembers(parts: seq<string>, t: PropertyType)
    ensures t in FilterTypes(parts) <==> PropertyTypeName(t) in parts
    decreases |parts|
  {
    if parts != [] {
      FilterTypesMembers(parts[1..], t);
      assert parts == [parts[0]] + parts[1..];
    }
  }

  /** Filtering distributes over concatenation, so the kept types stay in
      the order the parameter lists them. */
  lemma {:induction false} FilterTypesAppend(a: seq<string>, b: seq<string>)
    ensures FilterTypes(a + b) == FilterTypes(a) + FilterTypes(b)
    decreases |a|
  {
    if a != [] {
      assert (a + b)[1..] == a[1..] + b;
      FilterTypesAppend(a[1..], b);
    } else {
      assert a + b == b;
    }
  }

  /** The types that `types=...` constrains to. */
  function TypeFilter(types: string): seq<PropertyType> {
    FilterTypes(Split(types, ','))
  }

  /** `sort.split('_')`, which for the four allowed values is the field and
      the direction. */
  lemma SortSplit(s: SortOption)
    ensures Split(SortOptionName(s), '_') == [SortField(s), SortDirection(s)]
    ensures SortField(s) + "_" + SortDirection(s) == SortOptionName(s)
  {
    var parts := [SortField(s), SortDirection(s)];
    JoinShort(parts, "_");
    assert SortField(s) + "_" + SortDirection(s) == SortOptionName(s) by {
      match s
      case PriceAsc =>
      case PriceDesc =>
      case CreatedAtAsc =>
      case CreatedAtDesc =>
    }
    SplitJoin(parts, '_');
  }

  /** The `orderBy` record for a validated `sort`. */
  function OrderByFor(sort: Option<SortOption>): (o: OrderBy)
    ensures sort.None? ==> o == OrderBy("createdAt", "desc")
    ensures sort.Some? ==> o.field + "_" + o.direction == SortOptionName(sort.value)
    ensures sort.Some? ==> o.field in {"price", "createdAt"} && o.direction in {"asc", "desc"}
  {
    match sort
    case None => OrderBy("createdAt", "desc")
    case Some(s) =>
      SortSplit(s);
      var parts := Split(SortOptionName(s), '_');
      OrderBy(parts[0], parts[1])
  }

  /** The `where` record for a validated query. */
  function WhereFor(q: Query): (w: Where)
    ensures w.published
    ensures w.transactionType == q.operation
    ensures w.propertyType.Some? <==> q.types.Some? && q.types.value != "" && TypeFilter(q.types.value) != []
    ensures w.propertyType.Some? ==> w.propertyType.value == TypeFilter(q.types.value)
    ensures w.currency == q.currency
    ensures w.price.Some? <==> q.minPrice.Some? || q.maxPrice.Some?
    ensures w.price.Some? ==> w.price.value.gte == q.minPrice && w.price.value.lte == q.maxPrice
    ensures w.localidadId.Some? <==> q.localidadId.Some? && q.localidadId.value != ""
    ensures w.localidadId.Some? ==> w.localidadId == q.localidadId
    ensures w.featured == q.featured
  {
    Where(
      true,
      q.operation,
      if q.types.Some? && q.types.value != "" && TypeFilter(q.types.value) != []
      then Some(TypeFilter(q.types.value)) else None,
      q.currency,
      if q.minPrice.Some? || q.maxPrice.Some? then Some(PriceRange(q.minPrice, q.maxPrice)) else None,
      if q.localidadId.Some? && q.localidadId.value != "" then q.localidadId else None,
      q.featured)
  }

  /** `(page - 1) * limit`: the number of rows on the earlier pages, a
      multiple of the page size. */
  function Skip(page: int, limit: int): (r: int)
    requires page >= 1 && limit >= 1
    ensures r >= 0
    ensures r % limit == 0 && r / limit == page - 1
  {
    MultipleOf(page - 1, limit);
    (page - 1) * limit
  }

  lemma MultipleOf(a: int, k: int)
    requires k >= 1
    ensures (a * k) % k == 0 && (a * k) / k == a
  {
    var q := (a * k) / k;
    var r := (a * k) % k;
    assert a * k == q * k + r && 0 <= r < k;
    assert (a - q) * k == r;
    if a - q >= 1 {
      MulMonotone(1, a - q, k);
    } else if a - q <= -1 {
      MulMonotone(a - q, -1, k);
    }
  }

  /** `Math.ceil(total / limit)`. */
  function TotalPages(total: nat, limit: int): (n: nat)
    requires limit >= 1
    ensures total == 0 ==> n == 0
    ensures total > 0 ==> (n - 1) * limit < total <= n * limit
  {
    var n := (total + limit - 1) / limit;
    CeilBounds(total, limit, n);
    n
  }

  lemma CeilBounds(total: nat, limit: int, n: int)
    requires limit >= 1 && n == (total + limit - 1) / limit
    ensures n >= 0
    ensures total == 0 ==> n == 0
    ensures total > 0 ==> (n - 1) * limit < total <= n * limit
  {
    var r := (total + limit - 1) % limit;
    assert total + limit - 1 == n * limit + r;
    assert 0 <= r < limit;
    if total > 0 {
      assert n * limit == total + limit - 1 - r;
      assert (n - 1) * limit == n * limit - limit;
    }
  }

  /** A page has rows exactly when it is one of the first `totalPages`. */
  lemma PageHasRows(page: int, limit: int, total: nat)
    requires page >= 1 && limit >= 1
    ensures Skip(page, limit) < total <==> page <= TotalPages(total, limit)
  {
    var n := TotalPages(total, limit);
    var s := Skip(page, limit);
    if page <= n {
      assert total > 0;
      MulMonotone(page - 1, n - 1, limit);
    } else {
      if total > 0 {
        MulMonotone(n, page - 1, limit);
      }
    }
  }

  lemma MulMonotone(a: int, b: int, k: int)
    requires a <= b && k >= 0
    ensures a * k <= b * k
  {
    assert b * k - a * k == (b - a) * k;
  }

  /** The description handed to the database for a validated query. */
  function ListingQueryFor(q: Query): ListingQuery
    requires q.page >= 1 && q.limit >= 1
  {
    ListingQuery(WhereFor(q), OrderByFor(q.sort), Skip(q.page, q.limit), q.limit)
  }

  /** The `where` record built as the handler does: a record holding
      `published`, with members added one condition at a time. */
  method BuildWhere(q: Query) returns (where: Where)
    ensures where == WhereFor(q)
  {
    where := Where(true, None, None, None, None, None, None);
    if q.operation.Some? {
      where := where.(transactionType := q.operation);
    }
    if q.types.Some? && q.types.value != "" {
      var typeArray := FilterTypes(Split(q.types.value, ','));
      if |typeArray| > 0 {
        where := where.(propertyType := Some(typeArray));
      }
    }
    if q.currency.Some? {
      where := where.(currency := q.currency);
    }
    if q.minPrice.Some? || q.maxPrice.Some? {
      where := where.(price := Some(PriceRange(None, None)));
      if q.minPrice.Some? {
        where := where.(price := Some(where.price.value.(gte := q.minPrice)));
      }
      if q.maxPrice.Some? {
        where := where.(price := Some(where.price.value.(lte := q.maxPrice)));
      }
    }
    if q.localidadId.Some? && q.localidadId.value != "" {
      where := where.(localidadId := q.localidadId);
    }
    if q.featured.Some? {
      where := where.(featured := q.featured);
    }
  }

  /** The `orderBy` record built as the handler does: the default, replaced
      by the two halves of `sort` when it is given. */
  method BuildOrderBy(sort: Option<SortOption>) returns (orderBy: OrderBy)
    ensures orderBy == OrderByFor(sort)
  {
    orderBy := OrderBy("createdAt", "desc");
    if sort.Some? {
      SortSplit(sort.value);
      var parts := Split(SortOptionName(sort.value), '_');
      orderBy := OrderBy(parts[0], parts[1]);
    }
  }

  /** The description handed to the database: the `where` and `orderBy`
      records, `skip = (page - 1) * limit` and `take = limit`. */
  method BuildListingQuery(q: Query) returns (lq: ListingQuery)
    requires q.page >= 1 && q.limit >= 1
    ensures lq == ListingQueryFor(q)
  {
    var where := BuildWhere(q);
    var orderBy := BuildOrderBy(q.sort);
    lq := ListingQuery(where, orderBy, (q.page - 1) * q.limit, q.limit);
  }

  // ---------------------------------------------------------------------
  // The handler
  // ---------------------------------------------------------------------

  /** A listing row as the database returns it; `price` and `areaM2` are
      passed through as numbers. */
  datatype ListingRow = ListingRow(id: string, slug: string, price: int, areaM2: Option<int>)

  /** What the two database calls (`findMany` and `count`) come back with. */
  datatype DbOutcome = Rows(rows: seq<ListingRow>, total: nat) | DbFailed

  datatype Response =
    | Page(data: seq<ListingRow>, total: nat, page: int, limit: int, totalPages: nat)
    | BadRequest(message: string, details: seq<Issue>)
    | ServerError(message: string)
  {
    function Status(): int {
      match this
      case Page(_, _, _, _, _) => 200
      case BadRequest(_, _) => 400
      case ServerError(_) => 500
    }
  }

  const InvalidParamsMessage := "Par\U{00E1}metros inv\U{00E1}lidos"
  const FetchErrorMessage := "Error al obtener propiedades"

  /** `GET`: invalid parameters give 400 with the issues; a failing
      database gives 500; otherwise the page of rows with its counts. */
  method Get(raw: RawParams, database: ListingQuery -> DbOutcome) returns (resp: Response)
    ensures resp.Status() == 400 <==> ParseQuery(raw).Failure?
    ensures ParseQuery(raw).Failure? ==> resp == BadRequest(InvalidParamsMessage, ParseQuery(raw).error)
    ensures ParseQuery(raw).Success? ==>
      var q := ParseQuery(raw).value;
      match database(ListingQueryFor(q))
      case DbFailed => resp == ServerError(FetchErrorMessage)
      case Rows(rows, total) => resp == Page(rows, total, q.page, q.limit, TotalPages(total, q.limit))
  {
    var parsed := ParseQuery(raw);
    if parsed.Failure? {
      return BadRequest(InvalidParamsMessage, parsed.error);
    }
    var q := parsed.value;
    var lq := BuildListingQuery(q);
    var outcome := database(lq);
    match outcome
    case DbFailed =>
      resp := ServerError(FetchErrorMessage);
    case Rows(rows, total) =>
      resp := Page(rows, total, q.page, q.limit, TotalPages(total, q.limit));
  }

  /** Every answer to a valid request constrains `published`, and a
      request without parameters asks for the first twelve rows, newest
      first. */
  lemma DefaultRequest()
    ensures var raw := RawParams(None, None, None, None, None, None, None, None, None, None);
      && ParseQuery(raw).Success?
      && ListingQueryFor(ParseQuery(raw).value) ==
         ListingQuery(Where(true, None, None, None, None, None, None), OrderBy("createdAt", "desc"), 0, 12)
  {
  }
}
