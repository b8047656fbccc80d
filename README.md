# Real-estate catalogue: search, filtering and listing logic

This project models the logic at the centre of a real-estate website with a
public catalogue of properties and a small admin back office, and proves
properties of that model:

- **Locality search** (`LocalitySearch`). An accent- and case-insensitive
  prefix search over a dataset of Argentine localities, limited to the
  province of Buenos Aires. The first successful build of the search index
  filters the records by province, keeps the first record of every
  normalised name, sorts the entries by key and caches them. A query finds
  its lower bound by binary search and then scans forward while the keys
  start with the query.
- **Listing endpoint** (`PropertiesRoute`). `GET /api/properties`: the
  query schema with its bounds and defaults, the `where` clause, the sort
  order, `skip`/`take`, the page count, and the split between 400 and 500
  responses.
- **Filter store** (`FilterStore`). The client-side store of filters, sort,
  page and page size. Every action except `setPage` goes back to page 1.
- **Catalogue page** (`CatalogPage`). Its filter state is read from the
  address bar. It builds the filter chips, removes one chip or all of
  them, and builds the parameters of the listing request and of the
  address bar.
- **Locality autocomplete** (`LocalityAutocomplete`). The open/close rule
  on typing, the cyclic keyboard highlight, selection, and the split of a
  name around the typed text.
- **Admin property form** (`PropertyForm`). Moving an image to the cover
  position, removing an image, appending uploads, and the slug, address and
  method of the save request.

Shared pieces:

- `Property`: the enumerations `TransactionType`, `PropertyType` and
  `Currency`, and the filter record.
- `Text`: the JavaScript string operations the code uses.
- `Sequences`: `filter` and `splice` on lists.
- `Wrappers`: `Option` and `Result`.

Two behaviours of the code that a reader may not expect, kept as written:

- The index cache is tested with `if (searchIndex)`, and an empty array is
  truthy, so a successful build that keeps no record is cached for good.
  A failed fetch returns `[]` without caching, so the next call tries
  again (`LocalitySearch.LocalityIndex.BuildIndex`).
- The catalogue page does not go back to page 1 when a filter changes;
  only the store does.

Things outside the model are parameters:

- The dataset fetch is a `FetchOutcome`.
- The database is a function from the listing query to its rows or a
  failure.
- The upload of dropped files is an `UploadOutcome`.
- The slug library is a function `string -> string`.
- The results the search hook delivers arrive through
  `LocalityAutocomplete.Autocomplete.ResultsArrived`;
  `LocalityAutocomplete.PerformSearch` ties them to the locality search
  with its default limit of twenty.

## Model

| member | source | states |
|---|---|---|
| Property.ParsePropertyType | src/domain/entities/property.ts:8-18 | a string names a property type exactly when it is one of the nine enumeration values, and then names that one |
| Property.ParseTransactionType | src/domain/entities/property.ts:3-6 | a string is accepted exactly when it is the name of a transaction type (`VENTA`, `ALQUILER`), and then names that one |
| Property.ParseCurrency | src/domain/entities/property.ts:20-23 | a string is accepted exactly when it is the name of a currency (`ARS`, `USD`), and then names that one |
| Property.PropertyTypeNameRoundTrip | src/domain/entities/property.ts:8-18 | parsing the name of a property type gives the type back |
| Property.FieldsDetermineFilters | src/domain/entities/property.ts:47-58 | two filter records that agree on every key are equal |
| LocalitySearch.NormalizeShape | src/application/services/locality-search.ts:27-32 | a normalised string has only folded characters and no surrounding whitespace |
| LocalitySearch.NormalizeIdempotent | src/application/services/locality-search.ts:27-32 | normalising twice is normalising once |
| LocalitySearch.NormalizeIgnoresCase | src/application/services/locality-search.ts:27-32 | normalisation does not see letter case |
| LocalitySearch.FirstOccurrencesInScope | src/application/services/locality-search.ts:65-74 | every kept record names a province containing `buenos aires` |
| LocalitySearch.FirstOccurrencesDistinct | src/application/services/locality-search.ts:70-73 | no two kept records share a normalised name |
| LocalitySearch.FirstOccurrencesCover | src/application/services/locality-search.ts:65-74 | every in-scope record's name is represented among the kept records |
| LocalitySearch.FirstOccurrencesFirst | src/application/services/locality-search.ts:71-73 | the record kept for a name is the first in-scope record with that name in dataset order |
| LocalitySearch.UniqueInScope | src/application/services/locality-search.ts:63-74 | the map-filling loop keeps exactly the first in-scope record of every name, in dataset order |
| LocalitySearch.EntriesOf | src/application/services/locality-search.ts:76-84 | one entry per kept record, keyed by its normalised name |
| LocalitySearch.SortByKey | src/application/services/locality-search.ts:86-87 | the in-place sort leaves the entries strictly increasing by key and a permutation of the input |
| LocalitySearch.IndexEntriesSound | src/application/services/locality-search.ts:63-89 | every index entry is keyed by its record's normalised name, comes from the dataset, is in scope and is the first record with that key |
| LocalitySearch.IndexCoversScope | src/application/services/locality-search.ts:63-89 | every in-scope record's name has an entry in the index |
| LocalitySearch.LowerBound | src/application/services/locality-search.ts:40-49 | on sorted entries the result is in [0, n], every key before it is below the target and none from it on is |
| LocalitySearch.MatchingStops | src/application/services/locality-search.ts:115-116 | on sorted entries, once a key at or above the prefix does not start with it, no later key does, so the `break` loses no match |
| LocalitySearch.PrefixScan | src/application/services/locality-search.ts:111-120 | the scan from the lower bound returns the first `limit` entries whose key starts with the prefix, in index order |
| LocalitySearch.SearchResult | src/application/services/locality-search.ts:102-120 | at most `limit` results, and none when `limit` is 0 or less |
| LocalitySearch.SearchResultMatchesQuery | src/application/services/locality-search.ts:111-118 | every result's normalised name starts with the normalised query |
| LocalitySearch.SearchResultAscending | src/application/services/locality-search.ts:111-118 | results come in strictly ascending key order |
| LocalitySearch.SearchResultInScope | src/application/services/locality-search.ts:67-68 | every result is an in-scope record of the dataset, so a record outside Buenos Aires is never returned |
| LocalitySearch.SearchFindsEveryPrefix | src/application/services/locality-search.ts:111-118 | when all matches fit in the limit, every in-scope record whose name starts with the query is represented in the result |
| LocalitySearch.SearchIgnoresCase | src/application/services/locality-search.ts:102 | a query and its lower-case form give the same results |
| LocalitySearch.FormatLocalidad | src/application/services/locality-search.ts:124-129 | the name, then the department and the province when non-empty, separated by ` - ` |
| LocalitySearch.LocalityIndex.constructor | src/application/services/locality-search.ts:52 | the cache starts empty |
| LocalitySearch.LocalityIndex.BuildIndex | src/application/services/locality-search.ts:54-95 | a cached index is returned unchanged; a failed fetch gives `[]` and leaves the cache empty; a successful build is an index of the fetched records and is cached |
| LocalitySearch.LocalityIndex.SearchLocalidades | src/application/services/locality-search.ts:98-121 | a query under three normalised characters returns `[]` and leaves the cache alone; otherwise the result is the search over the (possibly new) cached index |
| LocalitySearch.LocalityIndex.Search | src/application/services/locality-search.ts:98-101 | without a limit the search returns at most twenty results, the search over the cached index with the default limit |
| LocalitySearch.LocalityIndex.Preload | src/application/services/locality-search.ts:132-134 | preloading builds the index or keeps the cached one |
| PropertiesRoute.ParseSortOption | app/api/properties/route.ts:16 | a sort value is accepted exactly when it is one of the four names, and then names that option |
| PropertiesRoute.ParseQuery | app/api/properties/route.ts:6-24 | the schema accepts exactly the acceptable parameters, with a non-empty issue list otherwise; an accepted query has `page` at least 1 and `limit` in [1, 50], defaulting to 1 and 12, coerces `featured` (non-empty string is true) and passes `types` and `localidadId` through; `operation`, `currency` and `sort` are absent exactly when the parameter is, and otherwise the enumeration value the parameter names; `minPrice` and `maxPrice` are absent exactly when the parameter is, and otherwise its number |
| PropertiesRoute.FilterTypesMembers | app/api/properties/route.ts:37-39 | a type survives the filter exactly when its name is among the split values |
| PropertiesRoute.FilterTypesAppend | app/api/properties/route.ts:37-39 | the filter works value by value, so the order of the values is kept |
| PropertiesRoute.SortSplit | app/api/properties/route.ts:71 | splitting a sort name on `_` gives exactly its field and direction |
| PropertiesRoute.OrderByFor | app/api/properties/route.ts:68-73 | the order defaults to `createdAt desc`; otherwise field and direction are the two sides of the sort name and are an allowed field and direction |
| PropertiesRoute.WhereFor | app/api/properties/route.ts:28-65 | `published` is always required; a type constraint exists iff some valid type remains; a price constraint exists iff either bound is given, with `gte`/`lte` exactly the given bounds; the locality only when non-empty |
| PropertiesRoute.BuildWhere | app/api/properties/route.ts:28-65 | the field-by-field construction builds `WhereFor` of the query |
| PropertiesRoute.BuildOrderBy | app/api/properties/route.ts:68-73 | the reassigned `orderBy` is `OrderByFor` of the sort |
| PropertiesRoute.Skip | app/api/properties/route.ts:80 | `skip` is non-negative and is `page - 1` whole pages |
| PropertiesRoute.TotalPages | app/api/properties/route.ts:98 | the page count is 0 for no rows, and otherwise the least count of pages holding every row |
| PropertiesRoute.PageHasRows | app/api/properties/route.ts:76-98 | a page starts before the last row exactly when its number is at most the page count |
| PropertiesRoute.BuildListingQuery | app/api/properties/route.ts:76-84 | the database query has the `where`, the order, `skip` and `take = limit` of the request |
| PropertiesRoute.Get | app/api/properties/route.ts:19-115 | status 400 exactly when the schema rejects the parameters, with its issues; 500 when the database fails; otherwise the rows with total, page, limit and page count |
| PropertiesRoute.DefaultRequest | app/api/properties/route.ts:6-17 | a request with no parameters is accepted and asks for the first twelve published listings, newest first |
| Sequences.WithoutMembers | src/presentation/stores/filter-store.ts:59 | the filter removes the value and keeps every other value |
| Sequences.WithoutAppend | src/presentation/stores/filter-store.ts:59 | the filter keeps the relative order of what remains |
| Sequences.RemoveAt | src/presentation/components/admin/property-form.tsx:110-111 | `splice(i, 1)` on a valid index shortens the list by one, keeps the elements before `i` and shifts those after it |
| Sequences.RemoveAtMultiset | src/presentation/components/admin/property-form.tsx:109-113 | removal keeps every other element as often as before |
| FilterStore.ToggleMembership | src/presentation/stores/filter-store.ts:51-64 | after a toggle the type is listed iff it was not before; other types are unaffected |
| FilterStore.ToggleTwice | src/presentation/stores/filter-store.ts:51-64 | toggling an absent type on and off gives the original list |
| FilterStore.RemoveFilter | src/presentation/stores/filter-store.ts:102-114 | removing the types filter empties the list, removing the operation resets it to a sale, any other key is deleted; every other key is unchanged |
| FilterStore.RemoveFilterIdempotent | src/presentation/stores/filter-store.ts:102-114 | removing a filter twice is removing it once |
| FilterStore.Store.constructor | src/presentation/stores/filter-store.ts:28-43 | the store starts with a sale, no types, published listings, newest first, page 1 of 12 |
| FilterStore.Store.SetTransactionType | src/presentation/stores/filter-store.ts:45-49 | replaces the operation and goes back to page 1 |
| FilterStore.Store.TogglePropertyType | src/presentation/stores/filter-store.ts:51-64 | toggles the type and goes back to page 1 |
| FilterStore.Store.SetCurrency | src/presentation/stores/filter-store.ts:66-70 | replaces the currency and goes back to page 1 |
| FilterStore.Store.SetPriceRange | src/presentation/stores/filter-store.ts:72-76 | replaces both bounds and goes back to page 1 |
| FilterStore.Store.SetLocalidad | src/presentation/stores/filter-store.ts:78-85 | stores only the locality id and goes back to page 1 |
| FilterStore.Store.SetSort | src/presentation/stores/filter-store.ts:87-91 | replaces the sort and goes back to page 1 |
| FilterStore.Store.SetPage | src/presentation/stores/filter-store.ts:93 | changes only the page |
| FilterStore.Store.ClearFilters | src/presentation/stores/filter-store.ts:95-100 | restores the initial filters and sort and goes back to page 1 |
| FilterStore.Store.RemoveFilterAction | src/presentation/stores/filter-store.ts:102-114 | applies `RemoveFilter` and goes back to page 1 |
| FilterStore.ToggleOnAndOff | src/presentation/stores/filter-store.ts:51-64 | two toggles through the store restore the filters, on page 1 |
| Text.SplitJoin | app/propiedades/page.tsx:50-53 | joining comma-free values with `,` and splitting on `,` gives the values back |
| CatalogPage.TypeChips | app/propiedades/page.tsx:154-162 | one chip per selected type, in order |
| CatalogPage.ChipsOf | app/propiedades/page.tsx:151-184 | the type chips, then the price chip iff a bound is set, then the locality chip iff it has a name |
| CatalogPage.TypeChipsWithout | app/propiedades/page.tsx:186-189 | removing a type removes exactly its chips |
| CatalogPage.RemoveChipDropsIt | app/propiedades/page.tsx:186-197 | removing a chip's filter removes exactly the chips with that key and keeps the others in order |
| CatalogPage.ClearFilters | app/propiedades/page.tsx:199-205 | clearing leaves operation, currency and sort and shows no chip |
| CatalogPage.RequestParamsDescribed | app/propiedades/page.tsx:84-106 | the request always carries page, size 12 and operation, and every other filter exactly when it is set |
| CatalogPage.UrlParamsDescribed | app/propiedades/page.tsx:124-145 | the address carries the operation, the set filters, the currency and sort only when not the defaults, and the locality only with both id and name |
| CatalogPage.UrlRoundTrip | app/propiedades/page.tsx:47-73 | reloading from the address the page wrote gives back its filter state |
| CatalogPage.EmptyTypeIsLost | app/propiedades/page.tsx:50-53 | a type list of one empty value does not survive the address bar |
| CatalogPage.RequestAccepted | app/propiedades/page.tsx:84-108 | the endpoint accepts the page's request and serves the requested page, 12 rows per page, with the page's price bounds |
| CatalogPage.Page.constructor | app/propiedades/page.tsx:47-74 | the initial state is read from the address bar, on page 1 |
| CatalogPage.Page.BuildFilterChips | app/propiedades/page.tsx:151-184 | the pushing loop builds `ChipsOf` of the state |
| CatalogPage.Page.HandleRemoveFilter | app/propiedades/page.tsx:186-197 | the state becomes `RemoveChip` of the old state |
| CatalogPage.Page.HandleClearFilters | app/propiedades/page.tsx:199-205 | the state becomes `ClearFilters` of the old state |
| CatalogPage.Page.HandleLocalityChange | app/propiedades/page.tsx:207-210 | the locality id and name become those of the chosen record, or none |
| CatalogPage.Page.RequestParams | app/propiedades/page.tsx:84-106 | the successive `set` calls build parameters that describe the request |
| CatalogPage.Page.UrlParams | app/propiedades/page.tsx:124-145 | the successive `set` calls build parameters that describe the address |
| LocalityAutocomplete.NextIndex | src/presentation/components/ui/locality-autocomplete.tsx:67-69 | ArrowDown keeps the highlight in [0, n) and wraps from n-1 to 0 |
| LocalityAutocomplete.PrevIndex | src/presentation/components/ui/locality-autocomplete.tsx:73-75 | ArrowUp keeps an in-range highlight in range and wraps from 0 to n-1 |
| LocalityAutocomplete.NextThenPrev | src/presentation/components/ui/locality-autocomplete.tsx:65-76 | ArrowDown then ArrowUp, or the reverse, returns to the same index |
| LocalityAutocomplete.DownsCycle | src/presentation/components/ui/locality-autocomplete.tsx:65-70 | k presses of ArrowDown advance the highlight by k modulo n |
| LocalityAutocomplete.UpsCycle | src/presentation/components/ui/locality-autocomplete.tsx:71-76 | k presses of ArrowUp move the highlight back by k modulo n |
| LocalityAutocomplete.HighlightMatch | src/presentation/components/ui/locality-autocomplete.tsx:96-112 | no case-insensitive match gives the text unchanged; otherwise the three slices concatenate to the text, the middle slice lower-cases to the lower-cased input, and it is the first match |
| LocalityAutocomplete.Autocomplete.constructor | src/presentation/components/ui/locality-autocomplete.tsx:26-28 | starts closed, with the highlight on 0 and the given value or the empty text |
| LocalityAutocomplete.Autocomplete.SyncValue | src/presentation/components/ui/locality-autocomplete.tsx:34-38 | a non-empty `value` replaces the text |
| LocalityAutocomplete.Autocomplete.HandleInputChange | src/presentation/components/ui/locality-autocomplete.tsx:40-52 | the highlight goes to 0; the dropdown opens and a search starts iff the text has at least 3 characters, otherwise the results are cleared |
| LocalityAutocomplete.Autocomplete.ResultsArrived | src/presentation/hooks/use-locality-search.ts:30-31 | the hook stores the results found, which never exceed the default limit, and nothing else changes |
| LocalityAutocomplete.PerformSearch | src/presentation/hooks/use-locality-search.ts:20-38 | the hook's search for the pending query stores no suggestion for a query under three characters, and otherwise the locality search's result with the default limit of twenty |
| LocalityAutocomplete.Autocomplete.HandleSelect | src/presentation/components/ui/locality-autocomplete.tsx:54-59 | the text becomes the formatted locality, the dropdown closes, the results are cleared, and `onChange` receives the locality |
| LocalityAutocomplete.Autocomplete.HandleKeyDown | src/presentation/components/ui/locality-autocomplete.tsx:61-88 | no key does anything while closed or empty; the arrows move the highlight cyclically; Enter selects the highlighted result when it exists; Escape closes |
| LocalityAutocomplete.Autocomplete.HandleFocus | src/presentation/components/ui/locality-autocomplete.tsx:121 | focus opens the dropdown only when there are results |
| LocalityAutocomplete.Autocomplete.HandleBlurTimeout | src/presentation/components/ui/locality-autocomplete.tsx:90-93 | the delayed close closes the dropdown and nothing else |
| LocalityAutocomplete.Autocomplete.HandleMouseEnter | src/presentation/components/ui/locality-autocomplete.tsx:152 | pointing at a result highlights it |
| LocalityAutocomplete.DownThenUp | src/presentation/components/ui/locality-autocomplete.tsx:65-76 | through the component, ArrowDown then ArrowUp leaves an in-range highlight where it was |
| PropertyForm.MoveToFront | src/presentation/components/admin/property-form.tsx:102-107 | the chosen image is first, the length is unchanged, the images before it shift by one and those after it stay |
| PropertyForm.MoveToFrontPermutes | src/presentation/components/admin/property-form.tsx:102-107 | setting the cover is a permutation of the images |
| PropertyForm.MoveFirstToFront | src/presentation/components/admin/property-form.tsx:102-107 | setting the current cover changes nothing |
| PropertyForm.MoveToFrontRest | src/presentation/components/admin/property-form.tsx:103-105 | after the cover come the other images in their original order |
| PropertyForm.SaveRequestFor | src/presentation/components/admin/property-form.tsx:139-155 | editing keeps a non-empty slug and sends PUT to `/api/admin/properties/{id}`; creating slugifies the title and sends POST to `/api/admin/properties`; the images are the current list |
| PropertyForm.UpdateAddressesRecord | src/presentation/components/admin/property-form.tsx:147-149 | an update's address ends with the edited record's id |
| PropertyForm.AfterSave | src/presentation/components/admin/property-form.tsx:157-166 | a success notice and the return to the list iff the save succeeded; the notice is never empty |
| PropertyForm.Form.constructor | src/presentation/components/admin/property-form.tsx:67 | the images start as the edited property's, or none |
| PropertyForm.Form.HandleSetCover | src/presentation/components/admin/property-form.tsx:102-107 | the list becomes `MoveToFront` of the old list |
| PropertyForm.Form.HandleRemoveImage | src/presentation/components/admin/property-form.tsx:109-113 | the list loses the image at the index |
| PropertyForm.Form.HandleDrop | src/presentation/components/admin/property-form.tsx:91-99 | uploads are appended after the existing images in upload order; a failed upload changes nothing and shows the error |
| PropertyForm.Form.SubmitRequest | src/presentation/components/admin/property-form.tsx:139-155 | the request sent is `SaveRequestFor` the form's state |
| PropertyForm.CoverThenRemove | src/presentation/components/admin/property-form.tsx:102-113 | making an image the cover and then removing the cover is removing that image |

## Left out

- The fetch of the locality dataset and the JSON decoding of its records are not modelled. The outcome is a parameter, and a record without a name, which would make the source throw, cannot be represented.
- LocalitySearch.Normalize: Unicode NFD and the `\p{Diacritic}` class are replaced by a fold of ASCII and Latin-1 letters plus the combining marks U+0300 to U+036F, because the Unicode tables are not encoded.
- String comparison, `length` and slicing are on Unicode scalar values, not UTF-16 code units, so strings with characters above U+FFFF may compare and count differently.
- `toLowerCase` covers ASCII and Latin-1 letters only; it preserves length, which the JavaScript one does not always do.
- LocalitySearch.LowerBound: `(lo + hi) >> 1` is written as division by 2. The two agree for the array sizes involved, and the O(log n) bound is not stated.
- Concurrent first calls to the index build are not modelled: calls are sequential, and the source has no in-flight guard.
- The records the database returns, with their decimal-to-number conversion of `price` and `areaM2`, are opaque rows.
- zod parsing is modelled only by its accept/reject outcome, its issue paths and the values it produces.
- Numbers are integers; fractional prices and fractional `page`/`limit` values are not modelled.
- CatalogPage.LoadNumber: only plain decimal integers (digits with an optional `-`) are read; any other string is treated as absent, including ones `Number()` reads as integers (a `+` sign, surrounding whitespace, an exponent, hexadecimal, a trailing `.0`), and fractions and `NaN`, which the page would keep.
- CatalogPage.NumberParam: at the endpoint, the empty string is coerced to 0 as `Number("")` does, but the other strings `Number()` reads as integers (sign, whitespace, exponent, hexadecimal, `.0`) are modelled as `NaN` and rejected.
- The order of query-string entries is not modelled, because parameters are a map from name to value. The endpoint's `Object.fromEntries` keeps the last repeated name and `get` keeps the first; these cannot differ in a map.
- URL encoding of parameter values is not modelled.
- The page's plain setters bound to the sidebar controls (operation, types, currency, price range, sort, pagination) and the navigation after building the address are not modelled; they assign the control's value.
- The page never sends `featured`; its request leaves that parameter out.
- The debounce of the search hook and the 200 ms blur delay are timers. Only their effects are modelled, as `ResultsArrived` and `HandleBlurTimeout`. The loading flags of the hook and the forms are not modelled.
- The form fields, their zod schema and their default values, the form's own `handleLocalityChange`, and the JSON body beyond slug and images are not modelled.
- `slugify`, the upload requests and the notification display are foreign calls, given as parameters or results.
- Rendering, animation and styling are not modelled.
