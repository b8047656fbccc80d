/** The client-side filter store of the catalogue: the current filters,
    the sort order, the page and the page size, and the actions that replace
    them. Every action except `SetPage` sends the view back to page 1. */
module FilterStore {
  import opened Wrappers
  import opened Property
  import opened Sequences

  const InitialFilters := PropertyFilters(Some(VENTA), Some([]), None, None, None, None, None, None, Some(true), None)
  const InitialSort := PropertySort(ByCreatedAt, Desc)
  const InitialLimit := 12

  /** The new type list of `togglePropertyType(t)`: every occurrence
      removed when present, appended when absent. */
  function Toggle(types: seq<PropertyType>, t: PropertyType): seq<PropertyType> {
    if t in types then Without(types, t) else types + [t]
  }

  /** After a toggle `t` is listed exactly when it was not listed before,
      and membership of every other type is unchanged. */
  lemma ToggleMembership(types: seq<PropertyType>, t: PropertyType)
    ensures t in Toggle(types, t) <==> t !in types
    ensures forall u :: u != t ==> (u in Toggle(types, t) <==> u in types)
  {
    WithoutMembers(types, t);
  }

  /** Toggling an absent type twice gives the original list back. */
  lemma ToggleTwice(types: seq<PropertyType>, t: PropertyType)
    requires t !in types
    ensures Toggle(Toggle(types, t), t) == types
  {
    WithoutAppend(types, [t], t);
    WithoutAbsent(types, t);
    assert Without([t], t) == [];
  }

  /** The filters after `removeFilter(key)`: the type list emptied, the
      operation reset to a sale, any other filter deleted. */
  function RemoveFilter(f: PropertyFilters, key: FilterKey): (r: PropertyFilters)
    ensures key == PropertyTypesKey ==> FieldOf(r, key) == TypesValue([])
    ensures key == TransactionTypeKey ==> FieldOf(r, key) == TransactionValue(VENTA)
    ensures key != PropertyTypesKey && key != TransactionTypeKey ==> FieldOf(r, key) == Absent
    ensures forall k :: k != key ==> FieldOf(r, k) == FieldOf(f, k)
  {
    match key
    case PropertyTypesKey => f.(propertyTypes := Some([]))
    case TransactionTypeKey => f.(transactionType := Some(VENTA))
    case CurrencyKey => f.(currency := None)
    case MinPriceKey => f.(minPrice := None)
    case MaxPriceKey => f.(maxPrice := None)
    case LocalidadIdKey => f.(localidadId := None)
    case BedroomsKey => f.(bedrooms := None)
    case BathroomsKey => f.(bathrooms := None)
    case PublishedKey => f.(published := None)
    case FeaturedKey => f.(featured := None)
  }

  /** Removing the same filter twice is the same as removing it once. */
  lemma RemoveFilterIdempotent(f: PropertyFilters, key: FilterKey)
    ensures RemoveFilter(RemoveFilter(f, key), key) == RemoveFilter(f, key)
  {
    var once := RemoveFilter(f, key);
    FieldsDetermineFilters(RemoveFilter(once, key), once);
  }

  /** `useFilterStore`. */
  class Store {
    var filters: PropertyFilters
    var sort: PropertySort
    var page: int
    var limit: int

    constructor()
      ensures filters == InitialFilters && sort == InitialSort
      ensures page == 1 && limit == InitialLimit
    {
      filters := InitialFilters;
      sort := InitialSort;
      page := 1;
      limit := InitialLimit;
    }

    method SetTransactionType(t: TransactionType)
      modifies this
      ensures filters == old(filters).(transactionType := Some(t))
      ensures sort == old(sort) && page == 1 && limit == old(limit)
    {
      filters := filters.(transactionType := Some(t));
      page := 1;
    }

    method TogglePropertyType(t: PropertyType)
      modifies this
      ensures filters == old(filters).(propertyTypes := Some(Toggle(old(filters).propertyTypes.GetOr([]), t)))
      ensures sort == old(sort) && page == 1 && limit == old(limit)
    {
      var current := filters.propertyTypes.GetOr([]);
      var present := t in current;
      filters := filters.(propertyTypes := Some(if present then Without(current, t) else current + [t]));
      page := 1;
    }

    method SetCurrency(c: Currency)
      modifies this
      ensures filters == old(filters).(currency := Some(c))
      ensures sort == old(sort) && page == 1 && limit == old(limit)
    {
      filters := filters.(currency := Some(c));
      page := 1;
    }

    method SetPriceRange(min: Option<int>, max: Option<int>)
      modifies this
      ensures filters == old(filters).(minPrice := min, maxPrice := max)
      ensures sort == old(sort) && page == 1 && limit == old(limit)
    {
      filters := filters.(minPrice := min, maxPrice := max);
      page := 1;
    }

    /** Only the id is stored; the name is not part of the filters. */
    method SetLocalidad(id: Option<string>, nombre: Option<string>)
      modifies this
      ensures filters == old(filters).(localidadId := id)
      ensures sort == old(sort) && page == 1 && limit == old(limit)
    {
      filters := filters.(localidadId := id);
      page := 1;
    }

    method SetSort(s: PropertySort)
      modifies this
      ensures sort == s
      ensures filters == old(filters) && page == 1 && limit == old(limit)
    {
      sort := s;
      page := 1;
    }

    method SetPage(p: int)
      modifies this
      ensures page == p
      ensures filters == old(filters) && sort == old(sort) && limit == old(limit)
    {
      page := p;
    }

    method ClearFilters()
      modifies this
      ensures filters == InitialFilters && sort == InitialSort
      ensures page == 1 && limit == old(limit)
    {
      filters := InitialFilters;
      sort := InitialSort;
      page := 1;
    }

    method RemoveFilterAction(key: FilterKey)
      modifies this
      ensures filters == RemoveFilter(old(filters), key)
      ensures sort == old(sort) && page == 1 && limit == old(limit)
    {
      var newFilters := filters;
      if key == PropertyTypesKey {
        newFilters := newFilters.(propertyTypes := Some([]));
      } else if key == TransactionTypeKey {
        newFilters := newFilters.(transactionType := Some(VENTA));
      } else {
        newFilters := RemoveFilter(newFilters, key);
      }
      filters := newFilters;
      page := 1;
    }
  }

  /** Toggling a type on and off again through the store restores the
      filters it started from, while the view is back on page 1. */
  method ToggleOnAndOff(store: Store, t: PropertyType)
    requires store.filters.propertyTypes.Some? && t !in store.filters.propertyTypes.value
    modifies store
    ensures store.filters == old(store.filters)
    ensures store.page == 1 && store.sort == old(store.sort) && store.limit == old(store.limit)
  {
    store.TogglePropertyType(t);
    store.TogglePropertyType(t);
    ToggleTwice(old(store.filters).propertyTypes.value, t);
  }
}
