/** The locality autocomplete input: the text typed so far, whether the
    dropdown is open, which suggestion is highlighted, and the suggestions
    the search hook delivered; the handlers for typing, keys, focus and
    selection; and the split of a suggestion's name around the typed text. */
module LocalityAutocomplete {
  import opened Wrappers
  import opened Text
  import opened LocalitySearch

  /** The number of characters from which typing starts a search. */
  const MinInputLength := 3

  /** The index ArrowDown moves the highlight to, among `n` suggestions:
      one further down, wrapping from the last to the first. */
  function NextIndex(h: int, n: int): (r: int)
    ensures n > 0 && h >= 0 ==> 0 <= r < n
    ensures h == n - 1 ==> r == 0
    ensures 0 <= h < n - 1 ==> r == h + 1
  {
    if h < n - 1 then h + 1 else 0
  }

  /** The index ArrowUp moves the highlight to: one further up, wrapping
      from the first to the last. */
  function PrevIndex(h: int, n: int): (r: int)
    ensures n > 0 && 0 <= h < n ==> 0 <= r < n
    ensures h == 0 ==> r == n - 1
    ensures 0 < h ==> r == h - 1
  {
    if h > 0 then h - 1 else n - 1
  }

  /** ArrowUp undoes ArrowDown, and ArrowDown undoes ArrowUp. */
  lemma NextThenPrev(h: int, n: int)
    requires 0 <= h < n
    ensures PrevIndex(NextIndex(h, n), n) == h
    ensures NextIndex(PrevIndex(h, n), n) == h
  {
  }

  /** The highlight after `k` presses of ArrowDown. */
  function Downs(h: int, n: int, k: nat): int {
    if k == 0 then h else NextIndex(Downs(h, n, k - 1), n)
  }

  /** The highlight after `k` presses of ArrowUp. */
  function Ups(h: int, n: int, k: nat): int {
    if k == 0 then h else PrevIndex(Ups(h, n, k - 1), n)
  }

  lemma MulAtLeast(a: int, n: int)
    requires a >= 1 && n > 0
    ensures a * n >= n
  {
    assert a * n == (a - 1) * n + n;
    assert (a - 1) * n >= 0;
  }

  /** The remainder is determined by any quotient-remainder split. */
  lemma ModOf(x: int, n: int, q: int, r: int)
    requires n > 0 && 0 <= r < n && x == q * n + r
    ensures x % n == r
  {
    var d := x / n;
    var e := q - d;
    assert e * n == x % n - r by {
      assert x == d * n + x % n;
      assert q * n - d * n == e * n;
    }
    if e > 0 {
      MulAtLeast(e, n);
    } else if e < 0 {
      MulAtLeast(-e, n);
    }
  }

  /** ArrowDown cycles through the suggestions: `k` presses advance the
      highlight by `k` places modulo the number of suggestions. */
  lemma {:induction false} DownsCycle(h: int, n: int, k: nat)
    requires 0 <= h < n
    ensures Downs(h, n, k) == (h + k) % n
  {
    if k == 0 {
      ModOf(h, n, 0, h);
    } else {
      DownsCycle(h, n, k - 1);
      var p := (h + k - 1) % n;
      var d := (h + k - 1) / n;
      assert h + k - 1 == d * n + p;
      if p < n - 1 {
        ModOf(h + k, n, d, p + 1);
      } else {
        assert (d + 1) * n == d * n + n;
        ModOf(h + k, n, d + 1, 0);
      }
    }
  }

  /** ArrowUp cycles the other way: `k` presses move the highlight back by
      `k` places modulo the number of suggestions. */
  lemma {:induction false} UpsCycle(h: int, n: int, k: nat)
    requires 0 <= h < n
    ensures Ups(h, n, k) == (h - k) % n
  {
    if k == 0 {
      ModOf(h, n, 0, h);
    } else {
      UpsCycle(h, n, k - 1);
      var p := (h - k + 1) % n;
      var d := (h - k + 1) / n;
      assert h - k + 1 == d * n + p;
      if p > 0 {
        ModOf(h - k, n, d, p - 1);
      } else {
        assert (d - 1) * n == d * n - n;
        ModOf(h - k, n, d - 1, n - 1);
      }
    }
  }

  /** What `highlightMatch` renders: the name unchanged, or the name split
      into the part before the first match, the match, and the rest. */
  datatype Highlighted =
    | Plain(text: string)
    | Marked(before: string, marked: string, after: string)

  /** `highlightMatch(text)` with the input holding `inputValue`: the first
      case-insensitive occurrence of the input in `text` is marked. */
  function HighlightMatch(inputValue: string, text: string): (r: Highlighted)
    ensures r.Plain? <==> !Contains(ToLower(text), ToLower(inputValue))
    ensures r.Plain? ==> r.text == text
    ensures r.Marked? ==> r.before + r.marked + r.after == text
    ensures r.Marked? ==> ToLower(r.marked) == ToLower(inputValue)
    ensures r.Marked? ==> forall j :: 0 <= j < |r.before| ==> !OccursAt(ToLower(text), ToLower(inputValue), j)
  {
    var query := ToLower(inputValue);
    var lowerText := ToLower(text);
    var index := IndexOf(lowerText, query);
    if index == -1 then Plain(text)
    else
      ToLowerSlice(text, index, index + |query|);
      assert text == text[..index] + text[index..index + |query|] + text[index + |query|..];
      Marked(text[..index], text[index..index + |query|], text[index + |query|..])
  }

  /** The keys the input reacts to; any other key is `OtherKey`. */
  datatype Key = ArrowDown | ArrowUp | Enter | Escape | OtherKey

  /** `LocalityAutocomplete`'s state, together with the `results` of the
      search hook it uses. */
  class Autocomplete {
    var inputValue: string
    var isOpen: bool
    var highlightedIndex: int
    /** The suggestions the search hook holds. */
    var results: seq<Localidad>
    /** The query of the most recent search the input started, whose
        results the hook delivers after its debounce. */
    var pendingQuery: Option<string>

    /** Every handler leaves the highlight at a non-negative index, and
        the hook never holds more suggestions than the search's default
        limit. */
    predicate Valid()
      reads this
    {
      highlightedIndex >= 0 && |results| <= DefaultLimit
    }

    /** The initial state, with the `value` property as the initial text. */
    constructor (value: Option<string>)
      ensures Valid()
      ensures inputValue == (if Truthy(value) then value.value else "")
      ensures !isOpen && highlightedIndex == 0 && results == [] && pendingQuery == None
    {
      inputValue := if Truthy(value) then value.value else "";
      isOpen := false;
      highlightedIndex := 0;
      results := [];
      pendingQuery := None;
    }

    /** The effect on the `value` property: a non-empty value replaces the
        text. */
    method SyncValue(value: Option<string>)
      modifies this
      ensures inputValue == (if Truthy(value) then value.value else old(inputValue))
      ensures isOpen == old(isOpen) && highlightedIndex == old(highlightedIndex)
      ensures results == old(results) && pendingQuery == old(pendingQuery)
    {
      if Truthy(value) {
        inputValue := value.value;
      }
    }

    /** `handleInputChange`: the highlight goes back to the first
        suggestion; three or more characters start a search and open the
        dropdown, fewer clear the suggestions and close it. */
    method HandleInputChange(newValue: string)
      requires Valid()
      modifies this
      ensures Valid()
      ensures inputValue == newValue && highlightedIndex == 0
      ensures isOpen <==> |newValue| >= MinInputLength
      ensures |newValue| >= MinInputLength ==>
        pendingQuery == Some(newValue) && results == old(results)
      ensures |newValue| < MinInputLength ==>
        results == [] && pendingQuery == old(pendingQuery)
    {
      inputValue := newValue;
      highlightedIndex := 0;
      if |newValue| >= MinInputLength {
        pendingQuery := Some(newValue);
        isOpen := true;
      } else {
        results := [];
        isOpen := false;
      }
    }

    /** The search hook storing the suggestions found for the pending
        query; the hook only ever stores a result of `Search`, which
        holds at most the default limit. */
    method ResultsArrived(found: seq<Localidad>)
      requires Valid() && |found| <= DefaultLimit
      modifies this
      ensures Valid()
      ensures results == found
      ensures inputValue == old(inputValue) && isOpen == old(isOpen)
      ensures highlightedIndex == old(highlightedIndex) && pendingQuery == old(pendingQuery)
    {
      results := found;
    }

    /** `handleSelect`: the text becomes the formatted locality, the
        dropdown closes and the suggestions are cleared; the locality is
        what `onChange` receives. */
    method HandleSelect(loc: Localidad) returns (chosen: Localidad)
      requires Valid()
      modifies this
      ensures Valid()
      ensures chosen == loc
      ensures inputValue == FormatLocalidad(loc) && !isOpen && results == []
      ensures highlightedIndex == old(highlightedIndex) && pendingQuery == old(pendingQuery)
    {
      inputValue := FormatLocalidad(loc);
      isOpen := false;
      results := [];
      chosen := loc;
    }

    /** `handleKeyDown`: nothing happens while the dropdown is closed or
        empty; the arrows move the highlight cyclically, Enter selects the
        highlighted suggestion when there is one, Escape closes. The
        result is the locality passed to `onChange`, if any. */
    method HandleKeyDown(key: Key) returns (chosen: Option<Localidad>)
      requires Valid()
      modifies this
      ensures Valid()
      ensures pendingQuery == old(pendingQuery)
      ensures !old(isOpen) || old(results) == [] ==>
        chosen == None && inputValue == old(inputValue) && isOpen == old(isOpen)
        && highlightedIndex == old(highlightedIndex) && results == old(results)
      ensures old(isOpen) && old(results) != [] ==>
        match key
        case ArrowDown =>
          && chosen == None && highlightedIndex == NextIndex(old(highlightedIndex), |old(results)|)
          && inputValue == old(inputValue) && isOpen && results == old(results)
        case ArrowUp =>
          && chosen == None && highlightedIndex == PrevIndex(old(highlightedIndex), |old(results)|)
          && inputValue == old(inputValue) && isOpen && results == old(results)
        case Enter =>
          if old(highlightedIndex) < |old(results)| then
            && chosen == Some(old(results)[old(highlightedIndex)])
            && inputValue == FormatLocalidad(old(results)[old(highlightedIndex)])
            && !isOpen && results == [] && highlightedIndex == old(highlightedIndex)
          else
            && chosen == None && inputValue == old(inputValue) && isOpen
            && highlightedIndex == old(highlightedIndex) && results == old(results)
        case Escape =>
          && chosen == None && !isOpen && inputValue == old(inputValue)
          && highlightedIndex == old(highlightedIndex) && results == old(results)
        case OtherKey =>
          && chosen == None && isOpen && inputValue == old(inputValue)
          && highlightedIndex == old(highlightedIndex) && results == old(results)
    {
      chosen := None;
      if !isOpen || |results| == 0 {
        return;
      }
      match key
      case ArrowDown =>
        highlightedIndex := if highlightedIndex < |results| - 1 then highlightedIndex + 1 else 0;
      case ArrowUp =>
        highlightedIndex := if highlightedIndex > 0 then highlightedIndex - 1 else |results| - 1;
      case Enter =>
        if highlightedIndex < |results| {
          var loc := HandleSelect(results[highlightedIndex]);
          chosen := Some(loc);
        }
      case Escape =>
        isOpen := false;
      case OtherKey =>
    }

    /** Focusing the input reopens the dropdown when it has suggestions. */
    method HandleFocus()
      requires Valid()
      modifies this
      ensures Valid()
      ensures isOpen == (old(isOpen) || results != [])
      ensures inputValue == old(inputValue) && highlightedIndex == old(highlightedIndex)
      ensures results == old(results) && pendingQuery == old(pendingQuery)
    {
      if |results| > 0 {
        isOpen := true;
      }
    }

    /** The close that `handleBlur` schedules. */
    method HandleBlurTimeout()
      requires Valid()
      modifies this
      ensures Valid()
      ensures !isOpen
      ensures inputValue == old(inputValue) && highlightedIndex == old(highlightedIndex)
      ensures results == old(results) && pendingQuery == old(pendingQuery)
    {
      isOpen := false;
    }

    /** Pointing at the suggestion at `index` highlights it. */
    method HandleMouseEnter(index: int)
      requires Valid() && 0 <= index < |results|
      modifies this
      ensures Valid()
      ensures highlightedIndex == index
      ensures inputValue == old(inputValue) && isOpen == old(isOpen)
      ensures results == old(results) && pendingQuery == old(pendingQuery)
    {
      highlightedIndex := index;
    }
  }

  /** Keys keep an in-range highlight in range, and ArrowDown followed by
      ArrowUp lands where it started. */
  method DownThenUp(c: Autocomplete)
    requires c.Valid() && c.isOpen && 0 <= c.highlightedIndex < |c.results|
    modifies c
    ensures c.highlightedIndex == old(c.highlightedIndex)
    ensures c.results == old(c.results) && c.isOpen && c.inputValue == old(c.inputValue)
  {
    var _ := c.HandleKeyDown(ArrowDown);
    assert 0 <= c.highlightedIndex < |c.results|;
    var _ := c.HandleKeyDown(ArrowUp);
    NextThenPrev(old(c.highlightedIndex), |c.results|);
  }

  /** The hook's `performSearch` for the query the input started: a query
      under three characters gives no suggestions; otherwise the
      suggestions are the index search with the default limit. */
  method PerformSearch(c: Autocomplete, index: LocalityIndex, fetch: FetchOutcome)
    requires c.Valid() && index.Valid() && c.pendingQuery.Some?
    modifies c, index
    ensures c.Valid() && index.Valid()
    ensures |old(c.pendingQuery).value| < MinInputLength ==> c.results == []
    ensures |old(c.pendingQuery).value| >= MinInputLength ==>
      c.results == SearchResult(index.searchIndex.GetOr([]), old(c.pendingQuery).value, DefaultLimit)
    ensures c.inputValue == old(c.inputValue) && c.isOpen == old(c.isOpen)
    ensures c.highlightedIndex == old(c.highlightedIndex) && c.pendingQuery == old(c.pendingQuery)
  {
    var query := c.pendingQuery.value;
    if |query| < MinInputLength {
      c.ResultsArrived([]);
    } else {
      var found := index.Search(query, fetch);
      c.ResultsArrived(found);
    }
  }
}
