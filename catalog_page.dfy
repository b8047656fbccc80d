/** The filter logic of the catalogue page `/propiedades`: the filter state
    read from the address bar, the chips that show the active filters and
    their removal, clearing the filters, the parameters sent to the listing
    endpoint and the parameters written back to the address bar. The
    page's state fields hold strings because the values read from the
    address bar are taken as they come. */
module CatalogPage {
  import opened Wrappers
  import opened Text
  import opened Property
  import opened Sequences
  import LocalitySearch
  import PropertiesRoute

  // ---------------------------------------------------------------------
  // Query-string parameters
  // ---------------------------------------------------------------------

  /** The names of the query-string parameters the page reads and writes. */
  datatype ParamName =
    | QPage | QLimit | QOperation | QTypes | QCurrency | QMinPrice | QMaxPrice
    | QLocalidadId | QLocalidadNombre | QSort | QFeatured
  {
    function Text(): string {
      match this
      case QPage => "page"
      case QLimit => "limit"
      case QOperation => "operation"
      case QTypes => "types"
      case QCurrency => "currency"
      case QMinPrice => "minPrice"
      case QMaxPrice => "maxPrice"
      case QLocalidadId => "localidadId"
      case QLocalidadNombre => "localidadNombre"
      case QSort => "sort"
      case QFeatured => "featured"
    }
  }

  /** A `URLSearchParams` object: the value under each name that is set.
      The order of the entries in the query string is not kept. */
  type Params = map<ParamName, string>

  /** `params.get(name)`. */
  function Lookup(ps: Params, name: ParamName): Option<string> {
    if name in ps then Some(ps[name]) else None
  }


  // ---------------------------------------------------------------------
  // The filter state
  // ---------------------------------------------------------------------

  datatype PageFilters = PageFilters(
    operation: string,
    propertyTypes: seq<string>,
    currency: string,
    minPrice: Option<int>,
    maxPrice: Option<int>,
    localidadNombre: Option<string>,
    localidadId: Option<string>,
    sort: string)

  const DefaultOperation := "VENTA"
  const DefaultCurrency := "ARS"
  const DefaultSort := "createdAt_desc"
  const PageSize := 12

  /** `types ? types.split(',') : []`. */
  function LoadTypes(types: Option<string>): seq<string> {
    if Truthy(types) then Split(types.value, ',') else []
  }

  function LoadNumber(val: Option<string>): Option<int> {
    if Truthy(val) then ParseInt(val.value) else None
  }

  /** `get(name) || undefined`. */
  function LoadText(val: Option<string>): Option<string> {
    if Truthy(val) then val else None
  }

  /** The initial filter state read from the address bar. */
  function LoadFilters(url: Params): PageFilters {
    PageFilters(
      if Truthy(Lookup(url, QOperation)) then Lookup(url, QOperation).value else DefaultOperation,
      LoadTypes(Lookup(url, QTypes)),
      if Truthy(Lookup(url, QCurrency)) then Lookup(url, QCurrency).value else DefaultCurrency,
      LoadNumber(Lookup(url, QMinPrice)),
      LoadNumber(Lookup(url, QMaxPrice)),
      LoadText(Lookup(url, QLocalidadNombre)),
      LoadText(Lookup(url, QLocalidadId)),
      if Truthy(Lookup(url, QSort)) then Lookup(url, QSort).value else DefaultSort)
  }

  function NumberText(n: Option<int>): Option<string> {
    match n
    case None => None
    case Some(v) => Some(IntToString(v))
  }

  // ---------------------------------------------------------------------
  // Filter chips
  // ---------------------------------------------------------------------

  /** A filter chip; `caption` is the chip's `label`. */
  datatype Chip = Chip(key: string, caption: string, value: string, color: Option<string>)

  const TypePrefix := "type-"
  const PriceKey := "price"
  const LocalityKey := "localidad"

  /** `propertyTypeLabels[type]`; a value that is not a property type has
      no label and shows nothing. */
  function TypeLabel(t: string): string {
    match ParsePropertyType(t)
    case Some(p) => PropertyTypeLabel(p)
    case None => ""
  }

  function TypeChip(t: string): Chip {
    Chip(TypePrefix + t, "Tipo", TypeLabel(t), None)
  }

  function TypeChips(types: seq<string>): (r: seq<Chip>)
    ensures |r| == |types|
    ensures forall i :: 0 <= i < |types| ==> r[i] == TypeChip(types[i])
    decreases |types|
  {
    if types == [] then [] else [TypeChip(types[0])] + TypeChips(types[1..])
  }

  /** `${minPrice || 0} - ${maxPrice || '∞'}`: a missing or zero bound
      shows as 0 below and as infinity above. */
  function PriceText(min: Option<int>, max: Option<int>): string {
    var low := if min.Some? then min.value else 0;
    var high := if max.Some? && max.value != 0 then IntToString(max.value) else "\U{221E}";
    IntToString(low) + " - " + high
  }

  predicate HasPrice(f: PageFilters) {
    f.minPrice.Some? || f.maxPrice.Some?
  }

  function PriceChip(f: PageFilters): Chip {
    Chip(PriceKey, "Precio", PriceText(f.minPrice, f.maxPrice), Some("green"))
  }

  function LocalityChip(nombre: string): Chip {
    Chip(LocalityKey, "Ubicaci\U{00F3}n", nombre, Some("violet"))
  }

  /** The chips of the active filters: one per selected type in order, then
      one for the price when either bound is set, then one for the locality
      when it has a name. */
  function ChipsOf(f: PageFilters): (chips: seq<Chip>)
    ensures |chips| == |f.propertyTypes| + (if HasPrice(f) then 1 else 0) + (if Truthy(f.localidadNombre) then 1 else 0)
    ensures forall i :: 0 <= i < |f.propertyTypes| ==> chips[i].key == TypePrefix + f.propertyTypes[i]
    ensures HasPrice(f) ==> chips[|f.propertyTypes|].key == PriceKey
    ensures Truthy(f.localidadNombre) ==> chips[|chips| - 1] == LocalityChip(f.localidadNombre.value)
  {
    TypeChips(f.propertyTypes)
    + (if HasPrice(f) then [PriceChip(f)] else [])
    + (if Truthy(f.localidadNombre) then [LocalityChip(f.localidadNombre.value)] else [])
  }

  /** The chips without those under `key`. */
  function DropChips(chips: seq<Chip>, key: string): seq<Chip>
    decreases |chips|
  {
    if chips == [] then []
    else if chips[0].key == key then DropChips(chips[1..], key)
    else [chips[0]] + DropChips(chips[1..], key)
  }

  lemma {:induction false} DropChipsAppend(a: seq<Chip>, b: seq<Chip>, key: string)
    ensures DropChips(a + b, key) == DropChips(a, key) + DropChips(b, key)
    decreases |a|
  {
    if a == [] {
      assert a + b == b;
    } else {
      assert (a + b)[1..] == a[1..] + b;
      DropChipsAppend(a[1..], b, key);
    }
  }

  lemma {:induction false} DropChipsAbsent(chips: seq<Chip>, key: string)
    requires forall i :: 0 <= i < |chips| ==> chips[i].key != key
    ensures DropChips(chips, key) == chips
    decreases |chips|
  {
    if chips != [] {
      DropChipsAbsent(chips[1..], key);
      assert chips == [chips[0]] + chips[1..];
    }
  }

  /** The chip of a type goes exactly when the type goes. */
  lemma {:induction false} TypeChipsWithout(types: seq<string>, t: string)
    ensures TypeChips(Without(types, t)) == DropChips(TypeChips(types), TypePrefix + t)
    decreases |types|
  {
    if types != [] {
      TypeChipsWithout(types[1..], t);
      assert (TypePrefix + types[0])[5..] == types[0] && (TypePrefix + t)[5..] == t;
      assert TypeChips(types)[1..] == TypeChips(types[1..]);
      if types[0] != t {
        assert TypeChips(Without(types, t)) == [TypeChip(types[0])] + TypeChips(Without(types[1..], t));
      }
    }
  }

  /** `handleRemoveFilter(key)`: a `type-T` chip removes every `T`, the
      price chip clears both bounds, the locality chip clears its id and its
      name; any other key changes nothing. */
  function RemoveChip(f: PageFilters, key: string): PageFilters {
    if StartsWith(key, TypePrefix) then f.(propertyTypes := Without(f.propertyTypes, key[|TypePrefix|..]))
    else if key == PriceKey then f.(minPrice := None, maxPrice := None)
    else if key == LocalityKey then f.(localidadId := None, localidadNombre := None)
    else f
  }

  /** Removing a chip removes exactly the chips with its key and leaves the
      other chips as they were, in their order. */
  lemma RemoveChipDropsIt(f: PageFilters, key: string)
    ensures ChipsOf(RemoveChip(f, key)) == DropChips(ChipsOf(f), key)
  {
    var types := TypeChips(f.propertyTypes);
    var price := if HasPrice(f) then [PriceChip(f)] else [];
    var loc := if Truthy(f.localidadNombre) then [LocalityChip(f.localidadNombre.value)] else [];
    assert ChipsOf(f) == types + price + loc;
    DropChipsAppend(types + price, loc, key);
    DropChipsAppend(types, price, key);
    if StartsWith(key, TypePrefix) {
      RemoveTypeChip(f, key);
    } else {
      TypeChipsKeys(f.propertyTypes, key);
      if key == PriceKey {
        DropChipsAbsent(loc, key);
      } else if key == LocalityKey {
        DropChipsAbsent(price, key);
      } else {
        DropChipsAbsent(price, key);
        DropChipsAbsent(loc, key);
      }
    }
  }

  lemma RemoveTypeChip(f: PageFilters, key: string)
    requires StartsWith(key, TypePrefix)
    ensures var price := if HasPrice(f) then [PriceChip(f)] else [];
      var loc := if Truthy(f.localidadNombre) then [LocalityChip(f.localidadNombre.value)] else [];
      && RemoveChip(f, key).propertyTypes == Without(f.propertyTypes, key[|TypePrefix|..])
      && TypeChips(RemoveChip(f, key).propertyTypes) == DropChips(TypeChips(f.propertyTypes), key)
      && DropChips(price, key) == price && DropChips(loc, key) == loc
  {
    var t := key[|TypePrefix|..];
    assert key == TypePrefix + t;
    TypeChipsWithout(f.propertyTypes, t);
    assert key[0] == 't';
  }

  /** No type chip has a key outside the `type-` family. */
  lemma TypeChipsKeys(types: seq<string>, key: string)
    requires !StartsWith(key, TypePrefix)
    ensures DropChips(TypeChips(types), key) == TypeChips(types)
  {
    var chips := TypeChips(types);
    forall i | 0 <= i < |chips| ensures chips[i].key != key {
      assert chips[i].key[..|TypePrefix|] == TypePrefix;
    }
    DropChipsAbsent(chips, key);
  }

  /** `handleClearFilters`: no types, no price bounds, no locality. */
  function ClearFilters(f: PageFilters): (r: PageFilters)
    ensures r.operation == f.operation && r.currency == f.currency && r.sort == f.sort
    ensures ChipsOf(r) == []
  {
    f.(propertyTypes := [], minPrice := None, maxPrice := None, localidadId := None, localidadNombre := None)
  }

  // ---------------------------------------------------------------------
  // The request to the listing endpoint and the address bar
  // ---------------------------------------------------------------------

  /** The parameters of the listing request for filter state `f` on page
      `page`: page, size and operation always; every other filter only when
      it is set. */
  predicate DescribesRequest(ps: Params, f: PageFilters, page: int) {
    && Lookup(ps, QPage) == Some(IntToString(page))
    && Lookup(ps, QLimit) == Some(IntToString(PageSize))
    && Lookup(ps, QOperation) == Some(f.operation)
    && Lookup(ps, QTypes) == (if |f.propertyTypes| > 0 then Some(Join(f.propertyTypes, ",")) else None)
    && Lookup(ps, QCurrency) == (if f.currency != "" then Some(f.currency) else None)
    && Lookup(ps, QMinPrice) == NumberText(f.minPrice)
    && Lookup(ps, QMaxPrice) == NumberText(f.maxPrice)
    && Lookup(ps, QLocalidadId) == (if Truthy(f.localidadId) then f.localidadId else None)
    && Lookup(ps, QSort) == (if f.sort != "" then Some(f.sort) else None)
    && ps.Keys <= {QPage, QLimit, QOperation, QTypes, QCurrency, QMinPrice, QMaxPrice, QLocalidadId, QSort}
  }

  /** The currency is written to the address bar only when it is not the
      default. */
  predicate ShowsCurrency(currency: string) {
    currency != "" && currency != DefaultCurrency
  }

  /** The sort order is written only when it is not the default. */
  predicate ShowsSort(sort: string) {
    sort != "" && sort != DefaultSort
  }

  /** The locality is written only with both its id and its name. */
  predicate ShowsLocality(f: PageFilters) {
    Truthy(f.localidadId) && Truthy(f.localidadNombre)
  }

  /** The address-bar parameters for filter state `f`: defaults are left
      out (the peso currency, the newest-first order), and the locality is
      written only with both its id and its name. */
  predicate DescribesUrl(ps: Params, f: PageFilters) {
    && Lookup(ps, QOperation) == Some(f.operation)
    && Lookup(ps, QTypes) == (if |f.propertyTypes| > 0 then Some(Join(f.propertyTypes, ",")) else None)
    && Lookup(ps, QCurrency) == (if ShowsCurrency(f.currency) then Some(f.currency) else None)
    && Lookup(ps, QMinPrice) == NumberText(f.minPrice)
    && Lookup(ps, QMaxPrice) == NumberText(f.maxPrice)
    && Lookup(ps, QLocalidadId) == (if ShowsLocality(f) then f.localidadId else None)
    && Lookup(ps, QLocalidadNombre) == (if ShowsLocality(f) then f.localidadNombre else None)
    && Lookup(ps, QSort) == (if ShowsSort(f.sort) then Some(f.sort) else None)
    && ps.Keys <= {QOperation, QTypes, QCurrency, QMinPrice, QMaxPrice, QLocalidadId, QLocalidadNombre, QSort}
  }

  /** The request parameters, set one after the other. */
  function RequestParamsOf(f: PageFilters, page: int): Params {
    var p0 := map[QPage := IntToString(page), QLimit := "12", QOperation := f.operation];
    var p1 := if |f.propertyTypes| > 0 then p0[QTypes := Join(f.propertyTypes, ",")] else p0;
    var p2 := if f.currency != "" then p1[QCurrency := f.currency] else p1;
    var p3 := if f.minPrice.Some? then p2[QMinPrice := IntToString(f.minPrice.value)] else p2;
    var p4 := if f.maxPrice.Some? then p3[QMaxPrice := IntToString(f.maxPrice.value)] else p3;
    var p5 := if Truthy(f.localidadId) then p4[QLocalidadId := f.localidadId.value] else p4;
    if f.sort != "" then p5[QSort := f.sort] else p5
  }

  lemma RequestParamsDescribed(f: PageFilters, page: int)
    ensures DescribesRequest(RequestParamsOf(f, page), f, page)
  {
    RequestLeadingParams(f, page);
    RequestTrailingParams(f, page);
  }

  lemma RequestLeadingParams(f: PageFilters, page: int)
    ensures var ps := RequestParamsOf(f, page);
      && Lookup(ps, QPage) == Some(IntToString(page))
      && Lookup(ps, QLimit) == Some(IntToString(PageSize))
      && Lookup(ps, QOperation) == Some(f.operation)
      && Lookup(ps, QTypes) == (if |f.propertyTypes| > 0 then Some(Join(f.propertyTypes, ",")) else None)
      && Lookup(ps, QCurrency) == (if f.currency != "" then Some(f.currency) else None)
  {
    RequestFixedParams(f, page);
  }

  lemma RequestFixedParams(f: PageFilters, page: int)
    ensures var ps := RequestParamsOf(f, page);
      && Lookup(ps, QPage) == Some(IntToString(page))
      && Lookup(ps, QLimit) == Some(IntToString(PageSize))
      && Lookup(ps, QOperation) == Some(f.operation)
  {
    PageSizeText();
  }

  /** The page size as it is written into the query string. */
  lemma PageSizeText()
    ensures IntToString(PageSize) == "12"
  {
    assert NatToString(12) == NatToString(1) + [DigitChar(2)];
  }

  lemma RequestTrailingParams(f: PageFilters, page: int)
    ensures var ps := RequestParamsOf(f, page);
      && Lookup(ps, QMinPrice) == NumberText(f.minPrice)
      && Lookup(ps, QMaxPrice) == NumberText(f.maxPrice)
      && Lookup(ps, QLocalidadId) == (if Truthy(f.localidadId) then f.localidadId else None)
      && Lookup(ps, QSort) == (if f.sort != "" then Some(f.sort) else None)
      && ps.Keys <= {QPage, QLimit, QOperation, QTypes, QCurrency, QMinPrice, QMaxPrice, QLocalidadId, QSort}
  {
  }

  /** The address-bar parameters, set one after the other. */
  function UrlParamsOf(f: PageFilters): Params {
    var p0 := map[QOperation := f.operation];
    var p1 := if |f.propertyTypes| > 0 then p0[QTypes := Join(f.propertyTypes, ",")] else p0;
    var p2 := if ShowsCurrency(f.currency) then p1[QCurrency := f.currency] else p1;
    var p3 := if f.minPrice.Some? then p2[QMinPrice := IntToString(f.minPrice.value)] else p2;
    var p4 := if f.maxPrice.Some? then p3[QMaxPrice := IntToString(f.maxPrice.value)] else p3;
    var p5 := if ShowsLocality(f) then p4[QLocalidadId := f.localidadId.value][QLocalidadNombre := f.localidadNombre.value] else p4;
    if ShowsSort(f.sort) then p5[QSort := f.sort] else p5
  }

  lemma UrlParamsDescribed(f: PageFilters)
    ensures DescribesUrl(UrlParamsOf(f), f)
  {
    UrlLeadingParams(f);
    UrlTrailingParams(f);
  }

  lemma UrlLeadingParams(f: PageFilters)
    ensures var ps := UrlParamsOf(f);
      && Lookup(ps, QOperation) == Some(f.operation)
      && Lookup(ps, QTypes) == (if |f.propertyTypes| > 0 then Some(Join(f.propertyTypes, ",")) else None)
      && Lookup(ps, QCurrency) == (if ShowsCurrency(f.currency) then Some(f.currency) else None)
      && Lookup(ps, QMinPrice) == NumberText(f.minPrice)
  {
  }

  lemma UrlTrailingParams(f: PageFilters)
    ensures var ps := UrlParamsOf(f);
      && Lookup(ps, QMaxPrice) == NumberText(f.maxPrice)
      && Lookup(ps, QLocalidadId) == (if ShowsLocality(f) then f.localidadId else None)
      && Lookup(ps, QLocalidadNombre) == (if ShowsLocality(f) then f.localidadNombre else None)
      && Lookup(ps, QSort) == (if ShowsSort(f.sort) then Some(f.sort) else None)
      && ps.Keys <= {QOperation, QTypes, QCurrency, QMinPrice, QMaxPrice, QLocalidadId, QLocalidadNombre, QSort}
  {
  }

  /** A filter state the address bar can carry: set values are non-empty,
      type values hold no comma and are not a single empty value, and the locality has both id and name or
      neither. */
  predicate Canonical(f: PageFilters) {
    && f.operation != "" && f.currency != "" && f.sort != ""
    && f.propertyTypes != [""]
    && (forall i :: 0 <= i < |f.propertyTypes| ==> ',' !in f.propertyTypes[i])
    && (f.localidadId.Some? <==> f.localidadNombre.Some?)
    && (f.localidadId.Some? ==> f.localidadId.value != "" && f.localidadNombre.value != "")
  }

  /** Reloading the page from the address it wrote gives back the filter
      state. */
  lemma UrlRoundTrip(ps: Params, f: PageFilters)
    requires DescribesUrl(ps, f) && Canonical(f)
    ensures LoadFilters(ps) == f
  {
    if |f.propertyTypes| > 0 {
      SplitJoin(f.propertyTypes, ',');
      JoinNonEmpty(f.propertyTypes, ",");
    }
    if f.minPrice.Some? {
      ParseIntToString(f.minPrice.value);
    }
    if f.maxPrice.Some? {
      ParseIntToString(f.maxPrice.value);
    }
  }

  /** Only a single empty value joins to the empty string. */
  lemma JoinNonEmpty(parts: seq<string>, sep: string)
    requires parts != [] && parts != [""] && sep != ""
    ensures Join(parts, sep) != ""
  {
    if |parts| > 1 {
      assert |Join(parts, sep)| >= |sep|;
    }
  }

  /** A type list of one empty value is the one list the address bar does
      not carry: it joins to the empty string, which reads back as no
      types. */
  lemma EmptyTypeIsLost()
    ensures LoadTypes(Some(Join([""], ","))) == []
  {
  }

  /** The listing request as the endpoint's schema sees it. `Number("")`
      is 0. */
  function NumberParam(val: Option<string>): Option<PropertiesRoute.RawNumber> {
    match val
    case None => None
    case Some(s) =>
      match ParseInt(s)
      case Some(n) => Some(PropertiesRoute.Numeric(n))
      case None => Some(if s == "" then PropertiesRoute.Numeric(0) else PropertiesRoute.NotANumber)
  }

  function RawOf(ps: Params): PropertiesRoute.RawParams {
    PropertiesRoute.RawParams(
      NumberParam(Lookup(ps, QPage)),
      NumberParam(Lookup(ps, QLimit)),
      Lookup(ps, QOperation),
      Lookup(ps, QTypes),
      Lookup(ps, QCurrency),
      NumberParam(Lookup(ps, QMinPrice)),
      NumberParam(Lookup(ps, QMaxPrice)),
      Lookup(ps, QLocalidadId),
      Lookup(ps, QFeatured),
      Lookup(ps, QSort))
  }

  /** The endpoint accepts the page's request whenever the operation, the
      currency and the sort hold values of their enumerations, and serves
      the requested page with twelve rows per page and the page's own price
      bounds. */
  lemma RequestAccepted(ps: Params, f: PageFilters, page: int)
    requires DescribesRequest(ps, f, page) && page >= 1
    requires ParseTransactionType(f.operation).Some?
    requires f.currency == "" || ParseCurrency(f.currency).Some?
    requires f.sort == "" || PropertiesRoute.ParseSortOption(f.sort).Some?
    ensures PropertiesRoute.ParseQuery(RawOf(ps)).Success?
    ensures var q := PropertiesRoute.ParseQuery(RawOf(ps)).value;
      q.page == page && q.limit == PageSize && q.minPrice == f.minPrice && q.maxPrice == f.maxPrice
  {
    ParseIntToString(page);
    ParseIntToString(PageSize);
    if f.minPrice.Some? {
      ParseIntToString(f.minPrice.value);
    }
    if f.maxPrice.Some? {
      ParseIntToString(f.maxPrice.value);
    }
  }

  // ---------------------------------------------------------------------
  // The page
  // ---------------------------------------------------------------------

  class Page {
    var operation: string
    var propertyTypes: seq<string>
    var currency: string
    var minPrice: Option<int>
    var maxPrice: Option<int>
    var localidadNombre: Option<string>
    var localidadId: Option<string>
    var sort: string
    var page: int

    function State(): PageFilters
      reads this
    {
      PageFilters(operation, propertyTypes, currency, minPrice, maxPrice, localidadNombre, localidadId, sort)
    }

    /** The initial state, read from the address bar. */
    constructor(url: Params)
      ensures State() == LoadFilters(url) && page == 1
    {
      var f := LoadFilters(url);
      operation := f.operation;
      propertyTypes := f.propertyTypes;
      currency := f.currency;
      minPrice := f.minPrice;
      maxPrice := f.maxPrice;
      localidadNombre := f.localidadNombre;
      localidadId := f.localidadId;
      sort := f.sort;
      page := 1;
    }

    /** `buildFilterChips`. */
    method BuildFilterChips() returns (chips: seq<Chip>)
      ensures chips == ChipsOf(State())
    {
      var f := State();
      chips := [];
      var i := 0;
      while i < |f.propertyTypes|
        invariant 0 <= i <= |f.propertyTypes|
        invariant chips == TypeChips(f.propertyTypes[..i])
      {
        TypeChipsAppend(f.propertyTypes[..i], f.propertyTypes[i]);
        assert f.propertyTypes[..i + 1] == f.propertyTypes[..i] + [f.propertyTypes[i]];
        chips := chips + [TypeChip(f.propertyTypes[i])];
        i := i + 1;
      }
      assert f.propertyTypes[..i] == f.propertyTypes;
      if f.minPrice.Some? || f.maxPrice.Some? {
        chips := chips + [Chip(PriceKey, "Precio", PriceText(f.minPrice, f.maxPrice), Some("green"))];
      }
      if f.localidadNombre.Some? && f.localidadNombre.value != "" {
        chips := chips + [LocalityChip(f.localidadNombre.value)];
      }
    }

    method HandleRemoveFilter(key: string)
      modifies this
      ensures State() == RemoveChip(old(State()), key) && page == old(page)
    {
      if StartsWith(key, TypePrefix) {
        var t := key[|TypePrefix|..];
        propertyTypes := Without(propertyTypes, t);
      } else if key == PriceKey {
        minPrice := None;
        maxPrice := None;
      } else if key == LocalityKey {
        localidadId := None;
        localidadNombre := None;
      }
    }

    method HandleClearFilters()
      modifies this
      ensures State() == ClearFilters(old(State())) && page == old(page)
    {
      propertyTypes := [];
      minPrice := None;
      maxPrice := None;
      localidadId := None;
      localidadNombre := None;
    }

    /** `handleLocalityChange`: the chosen record's id and name, or none. */
    method HandleLocalityChange(loc: Option<LocalitySearch.Localidad>)
      modifies this
      ensures localidadId == (if loc.Some? then Some(loc.value.id) else None)
      ensures localidadNombre == (if loc.Some? then Some(loc.value.nombre) else None)
      ensures operation == old(operation) && propertyTypes == old(propertyTypes) && currency == old(currency)
      ensures minPrice == old(minPrice) && maxPrice == old(maxPrice) && sort == old(sort) && page == old(page)
    {
      if loc.Some? {
        localidadId := Some(loc.value.id);
        localidadNombre := Some(loc.value.nombre);
      } else {
        localidadId := None;
        localidadNombre := None;
      }
    }

    /** The parameters `fetchProperties` sends. */
    method RequestParams() returns (params: Params)
      ensures params == RequestParamsOf(State(), page)
      ensures DescribesRequest(params, State(), page)
    {
      var f := State();
      params := map[];
      params := params[QPage := IntToString(page)];
      params := params[QLimit := "12"];
      params := params[QOperation := f.operation];
      if |f.propertyTypes| > 0 {
        params := params[QTypes := Join(f.propertyTypes, ",")];
      }
      if f.currency != "" {
        params := params[QCurrency := f.currency];
      }
      if f.minPrice.Some? {
        params := params[QMinPrice := IntToString(f.minPrice.value)];
      }
      if f.maxPrice.Some? {
        params := params[QMaxPrice := IntToString(f.maxPrice.value)];
      }
      if f.localidadId.Some? && f.localidadId.value != "" {
        params := params[QLocalidadId := f.localidadId.value];
      }
      if f.sort != "" {
        params := params[QSort := f.sort];
      }
      RequestParamsDescribed(f, page);
    }

    /** The parameters the address-bar effect writes. */
    method UrlParams() returns (params: Params)
      ensures params == UrlParamsOf(State())
      ensures DescribesUrl(params, State())
    {
      var f := State();
      params := map[];
      params := params[QOperation := f.operation];
      if |f.propertyTypes| > 0 {
        params := params[QTypes := Join(f.propertyTypes, ",")];
      }
      if ShowsCurrency(f.currency) {
        params := params[QCurrency := f.currency];
      }
      if f.minPrice.Some? {
        params := params[QMinPrice := IntToString(f.minPrice.value)];
      }
      if f.maxPrice.Some? {
        params := params[QMaxPrice := IntToString(f.maxPrice.value)];
      }
      if ShowsLocality(f) {
        params := params[QLocalidadId := f.localidadId.value];
        params := params[QLocalidadNombre := f.localidadNombre.value];
      }
      if ShowsSort(f.sort) {
        params := params[QSort := f.sort];
      }
      UrlParamsDescribed(f);
    }
  }

  lemma TypeChipsAppend(types: seq<string>, t: string)
    ensures TypeChips(types + [t]) == TypeChips(types) + [TypeChip(t)]
  {
  }
}
