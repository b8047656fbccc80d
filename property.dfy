/** The domain enumerations of a listing: the kind of transaction, the kind
    of property and the currency of its price, each with the string value
    the enumeration member carries in the source. */
module Property {
  import opened Wrappers

  datatype TransactionType = VENTA | ALQUILER

  datatype PropertyType =
    | TERRENO | DEPARTAMENTO | CASA | QUINTA | OFICINA | LOCAL
    | EDIFICIO_COMERCIAL | CAMPO | PH

  datatype Currency = ARS | USD

  function TransactionTypeName(t: TransactionType): string {
    match t
    case VENTA => "VENTA"
    case ALQUILER => "ALQUILER"
  }

  function PropertyTypeName(t: PropertyType): string {
    match t
    case TERRENO => "TERRENO"
    case DEPARTAMENTO => "DEPARTAMENTO"
    case CASA => "CASA"
    case QUINTA => "QUINTA"
    case OFICINA => "OFICINA"
    case LOCAL => "LOCAL"
    case EDIFICIO_COMERCIAL => "EDIFICIO_COMERCIAL"
    case CAMPO => "CAMPO"
    case PH => "PH"
  }

  function CurrencyName(c: Currency): string {
    match c
    case ARS => "ARS"
    case USD => "USD"
  }

  /** The enumeration member whose value is `s`, if any
      (`Object.values(PropertyType).includes(s)`). */
  function ParsePropertyType(s: string): (r: Option<PropertyType>)
    ensures r.Some? ==> PropertyTypeName(r.value) == s
    ensures r.None? ==> forall t: PropertyType :: PropertyTypeName(t) != s
  {
    if s == "TERRENO" then Some(TERRENO)
    else if s == "DEPARTAMENTO" then Some(DEPARTAMENTO)
    else if s == "CASA" then Some(CASA)
    else if s == "QUINTA" then Some(QUINTA)
    else if s == "OFICINA" then Some(OFICINA)
    else if s == "LOCAL" then Some(LOCAL)
    else if s == "EDIFICIO_COMERCIAL" then Some(EDIFICIO_COMERCIAL)
    else if s == "CAMPO" then Some(CAMPO)
    else if s == "PH" then Some(PH)
    else None
  }

  function ParseTransactionType(s: string): (r: Option<TransactionType>)
    ensures r.Some? ==> TransactionTypeName(r.value) == s
    ensures r.None? ==> forall t: TransactionType :: TransactionTypeName(t) != s
  {
    if s == "VENTA" then Some(VENTA)
    else if s == "ALQUILER" then Some(ALQUILER)
    else None
  }

  function ParseCurrency(s: string): (r: Option<Currency>)
    ensures r.Some? ==> CurrencyName(r.value) == s
    ensures r.None? ==> forall c: Currency :: CurrencyName(c) != s
  {
    if s == "ARS" then Some(ARS)
    else if s == "USD" then Some(USD)
    else None
  }

  /** Parsing the value of a member gives that member back. */
  lemma PropertyTypeNameRoundTrip(t: PropertyType)
    ensures ParsePropertyType(PropertyTypeName(t)) == Some(t)
  {
  }

  /** `propertyTypeLabels`. */
  function PropertyTypeLabel(t: PropertyType): string {
    match t
    case TERRENO => "Terreno"
    case DEPARTAMENTO => "Departamento"
    case CASA => "Casa"
    case QUINTA => "Quinta"
    case OFICINA => "Oficina"
    case LOCAL => "Local"
    case EDIFICIO_COMERCIAL => "Edificio Comercial"
    case CAMPO => "Campo"
    case PH => "PH"
  }

  /** The filters a listing search can carry; an absent filter is `None`. */
  datatype PropertyFilters = PropertyFilters(
    transactionType: Option<TransactionType>,
    propertyTypes: Option<seq<PropertyType>>,
    currency: Option<Currency>,
    minPrice: Option<int>,
    maxPrice: Option<int>,
    localidadId: Option<string>,
    bedrooms: Option<int>,
    bathrooms: Option<int>,
    published: Option<bool>,
    featured: Option<bool>)

  /** `keyof PropertyFilters`. */
  datatype FilterKey =
    | TransactionTypeKey | PropertyTypesKey | CurrencyKey | MinPriceKey | MaxPriceKey
    | LocalidadIdKey | BedroomsKey | BathroomsKey | PublishedKey | FeaturedKey

  /** The value held under one key of a filter record, or `Absent`. */
  datatype FieldValue =
    | Absent
    | TransactionValue(t: TransactionType)
    | TypesValue(types: seq<PropertyType>)
    | CurrencyValue(c: Currency)
    | NumberValue(n: int)
    | TextValue(s: string)
    | FlagValue(b: bool)

  function Lift<T>(o: Option<T>, wrap: T -> FieldValue): FieldValue {
    match o
    case None => Absent
    case Some(v) => wrap(v)
  }

  /** `filters[key]`. */
  function FieldOf(f: PropertyFilters, key: FilterKey): FieldValue {
    match key
    case TransactionTypeKey => Lift(f.transactionType, t => TransactionValue(t))
    case PropertyTypesKey => Lift(f.propertyTypes, ts => TypesValue(ts))
    case CurrencyKey => Lift(f.currency, c => CurrencyValue(c))
    case MinPriceKey => Lift(f.minPrice, n => NumberValue(n))
    case MaxPriceKey => Lift(f.maxPrice, n => NumberValue(n))
    case LocalidadIdKey => Lift(f.localidadId, s => TextValue(s))
    case BedroomsKey => Lift(f.bedrooms, n => NumberValue(n))
    case BathroomsKey => Lift(f.bathrooms, n => NumberValue(n))
    case PublishedKey => Lift(f.published, b => FlagValue(b))
    case FeaturedKey => Lift(f.featured, b => FlagValue(b))
  }

  /** Two filter records holding the same value under every key are the
      same record. */
  lemma FieldsDetermineFilters(f: PropertyFilters, g: PropertyFilters)
    requires forall k :: FieldOf(f, k) == FieldOf(g, k)
    ensures f == g
  {
    assert FieldOf(f, TransactionTypeKey) == FieldOf(g, TransactionTypeKey);
    assert FieldOf(f, PropertyTypesKey) == FieldOf(g, PropertyTypesKey);
    assert FieldOf(f, CurrencyKey) == FieldOf(g, CurrencyKey);
    assert FieldOf(f, MinPriceKey) == FieldOf(g, MinPriceKey);
    assert FieldOf(f, MaxPriceKey) == FieldOf(g, MaxPriceKey);
    assert FieldOf(f, LocalidadIdKey) == FieldOf(g, LocalidadIdKey);
    assert FieldOf(f, BedroomsKey) == FieldOf(g, BedroomsKey);
    assert FieldOf(f, BathroomsKey) == FieldOf(g, BathroomsKey);
    assert FieldOf(f, PublishedKey) == FieldOf(g, PublishedKey);
    assert FieldOf(f, FeaturedKey) == FieldOf(g, FeaturedKey);
  }

  datatype SortBy = ByPrice | ByCreatedAt

  datatype Direction = Asc | Desc

  datatype PropertySort = PropertySort(field: SortBy, direction: Direction)
}
