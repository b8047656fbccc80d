/** The locality typeahead index: the place-name records of the province of
    Buenos Aires, one per normalised name (the first one in dataset order),
    sorted by normalised name, built once and cached, and queried with a
    binary-search lower bound followed by a forward scan over the run of
    names that start with the normalised query. */
module LocalitySearch {
  import opened Wrappers
  import opened Text

  datatype Division = Division(id: string, nombre: string)

  /** A place-name record. The dataset's records and the projection stored
      in the index have the same shape, so one type serves both. */
  datatype Localidad = Localidad(
    id: string,
    nombre: string,
    provincia: Option<Division>,
    departamento: Option<Division>)

  datatype SearchEntry = SearchEntry(key: string, loc: Localidad)

  /** What loading the dataset gave: its records, or a failure (network,
      status or JSON error). */
  datatype FetchOutcome = Fetched(localidades: seq<Localidad>) | FetchFailed

  /** The province filter: the normalised province name must contain it. */
  const Scope: string := "buenos aires"

  /** Normalised queries shorter than this give no results. */
  const MinQueryLength: nat := 3

  /** The result limit when the caller gives none. */
  const DefaultLimit: int := 20

  // ---------------------------------------------------------------------
  // Normalisation: decompose, drop diacritics, lower-case, trim.
  // ---------------------------------------------------------------------

  /** The characters the diacritic filter drops: the combining marks that
      canonical decomposition produces, and the spacing accents of ASCII and
      Latin-1. */
  predicate IsDiacritic(c: char) {
    ('\U{0300}' <= c <= '\U{036F}')
    || c == '^' || c == '`'
    || c == '\U{00A8}' || c == '\U{00AF}' || c == '\U{00B4}' || c == '\U{00B7}' || c == '\U{00B8}'
  }

  /** One character after decomposition, diacritic removal and lower-casing:
      an accented Latin-1 letter becomes its base letter. */
  function FoldChar(c: char): char {
    if ('\U{00C0}' <= c <= '\U{00C5}') || ('\U{00E0}' <= c <= '\U{00E5}') then 'a'
    else if c == '\U{00C7}' || c == '\U{00E7}' then 'c'
    else if ('\U{00C8}' <= c <= '\U{00CB}') || ('\U{00E8}' <= c <= '\U{00EB}') then 'e'
    else if ('\U{00CC}' <= c <= '\U{00CF}') || ('\U{00EC}' <= c <= '\U{00EF}') then 'i'
    else if c == '\U{00D1}' || c == '\U{00F1}' then 'n'
    else if ('\U{00D2}' <= c <= '\U{00D6}') || ('\U{00F2}' <= c <= '\U{00F6}') then 'o'
    else if ('\U{00D9}' <= c <= '\U{00DC}') || ('\U{00F9}' <= c <= '\U{00FC}') then 'u'
    else if c == '\U{00DD}' || c == '\U{00FD}' || c == '\U{00FF}' then 'y'
    else LowerChar(c)
  }

  /** A character that folding leaves as it is. */
  predicate Folded(c: char) {
    !IsDiacritic(c) && FoldChar(c) == c
  }

  function Fold(s: string): string {
    if s == [] then []
    else (if IsDiacritic(s[0]) then [] else [FoldChar(s[0])]) + Fold(s[1..])
  }

  /** The characters JavaScript's `trim` removes: white space and line
      terminators. */
  predicate IsWhitespace(c: char) {
    c == ' ' || c == '\t' || c == '\n' || c == '\r'
    || c == '\U{000B}' || c == '\U{000C}' || c == '\U{00A0}' || c == '\U{1680}'
    || ('\U{2000}' <= c <= '\U{200A}')
    || c == '\U{2028}' || c == '\U{2029}' || c == '\U{202F}' || c == '\U{205F}'
    || c == '\U{3000}' || c == '\U{FEFF}'
  }

  function TrimStart(s: string): string {
    if s != [] && IsWhitespace(s[0]) then TrimStart(s[1..]) else s
  }

  function TrimEnd(s: string): string {
    if s != [] && IsWhitespace(s[|s| - 1]) then TrimEnd(s[..|s| - 1]) else s
  }

  function Trim(s: string): string {
    TrimEnd(TrimStart(s))
  }

  /** `normalize`: the comparison key of a name. */
  function Normalize(s: string): string {
    Trim(Fold(s))
  }

  predicate AllFolded(s: string) {
    forall i :: 0 <= i < |s| ==> Folded(s[i])
  }

  predicate Trimmed(s: string) {
    s == [] || (!IsWhitespace(s[0]) && !IsWhitespace(s[|s| - 1]))
  }

  lemma {:induction false} FoldFolds(s: string)
    ensures AllFolded(Fold(s))
  {
    if s != [] {
      FoldFolds(s[1..]);
    }
  }

  lemma {:induction false} TrimStartSuffix(s: string)
    ensures |TrimStart(s)| <= |s| && TrimStart(s) == s[|s| - |TrimStart(s)|..]
    ensures TrimStart(s) == [] || !IsWhitespace(TrimStart(s)[0])
  {
    if s != [] && IsWhitespace(s[0]) {
      TrimStartSuffix(s[1..]);
    }
  }

  lemma {:induction false} TrimEndPrefix(s: string)
    ensures |TrimEnd(s)| <= |s| && TrimEnd(s) == s[..|TrimEnd(s)|]
    ensures TrimEnd(s) == [] || !IsWhitespace(TrimEnd(s)[|TrimEnd(s)| - 1])
  {
    if s != [] && IsWhitespace(s[|s| - 1]) {
      TrimEndPrefix(s[..|s| - 1]);
    }
  }

  /** Trimming keeps a slice of its input, with no white space at either
      end. */
  lemma TrimSlice(s: string)
    ensures Trimmed(Trim(s))
    ensures forall i :: 0 <= i < |Trim(s)| ==> Trim(s)[i] in s
  {
    var t := TrimStart(s);
    TrimStartSuffix(s);
    TrimEndPrefix(t);
    var k := |s| - |t|;
    assert forall i :: 0 <= i < |Trim(s)| ==> Trim(s)[i] == s[k + i];
  }

  /** A normalised key consists of folded characters and has no white space
      at either end. */
  lemma NormalizeShape(s: string)
    ensures AllFolded(Normalize(s)) && Trimmed(Normalize(s))
  {
    var f := Fold(s);
    FoldFolds(s);
    TrimSlice(f);
    forall i | 0 <= i < |Trim(f)| ensures Folded(Trim(f)[i]) {
      var k :| 0 <= k < |f| && f[k] == Trim(f)[i];
    }
  }

  lemma {:induction false} FoldOfFolded(s: string)
    requires AllFolded(s)
    ensures Fold(s) == s
  {
    if s != [] {
      FoldOfFolded(s[1..]);
      assert s == [s[0]] + s[1..];
    }
  }

  lemma TrimOfTrimmed(s: string)
    requires Trimmed(s)
    ensures Trim(s) == s
  {
  }

  /** Normalising twice is normalising once. */
  lemma NormalizeIdempotent(s: string)
    ensures Normalize(Normalize(s)) == Normalize(s)
  {
    var n := Normalize(s);
    NormalizeShape(s);
    FoldOfFolded(n);
    TrimOfTrimmed(n);
  }

  lemma FoldCharIgnoresCase(c: char)
    ensures FoldChar(LowerChar(c)) == FoldChar(c)
    ensures IsDiacritic(LowerChar(c)) == IsDiacritic(c)
  {
  }

  lemma {:induction false} FoldIgnoresCase(s: string)
    ensures Fold(ToLower(s)) == Fold(s)
  {
    if s != [] {
      FoldCharIgnoresCase(s[0]);
      assert ToLower(s)[1..] == ToLower(s[1..]);
      FoldIgnoresCase(s[1..]);
    }
  }

  /** Normalisation does not see letter case. */
  lemma NormalizeIgnoresCase(s: string)
    ensures Normalize(ToLower(s)) == Normalize(s)
  {
    FoldIgnoresCase(s);
  }

  // ---------------------------------------------------------------------
  // Scope filter and first-occurrence deduplication.
  // ---------------------------------------------------------------------

  /** `loc.provincia?.nombre || ''`. */
  function ProvinceName(loc: Localidad): string {
    if loc.provincia.Some? then loc.provincia.value.nombre else ""
  }

  /** The record belongs to the province the index covers. */
  predicate InScope(loc: Localidad) {
    Contains(Normalize(ProvinceName(loc)), Scope)
  }

  /** The key a record is indexed under. */
  function KeyOf(loc: Localidad): string {
    Normalize(loc.nombre)
  }

  function KeysOf(locs: seq<Localidad>): set<string> {
    set i | 0 <= i < |locs| :: KeyOf(locs[i])
  }

  /** The values of the deduplicating map after the records were visited in
      order: an in-scope record is added when its key is new. */
  function FirstOccurrences(locs: seq<Localidad>): seq<Localidad>
    decreases |locs|
  {
    if locs == [] then []
    else
      var kept := FirstOccurrences(locs[..|locs| - 1]);
      var loc := locs[|locs| - 1];
      if InScope(loc) && KeyOf(loc) !in KeysOf(kept) then kept + [loc] else kept
  }

  /** Reference definition: the first in-scope record with key `k`, reading
      the dataset from the front. */
  function FirstWithKey(locs: seq<Localidad>, k: string): Option<Localidad>
    decreases |locs|
  {
    if locs == [] then None
    else if InScope(locs[0]) && KeyOf(locs[0]) == k then Some(locs[0])
    else FirstWithKey(locs[1..], k)
  }

  lemma {:induction false} FirstWithKeyFound(locs: seq<Localidad>, k: string)
    ensures FirstWithKey(locs, k).Some? ==>
      var loc := FirstWithKey(locs, k).value;
      loc in locs && InScope(loc) && KeyOf(loc) == k
    decreases |locs|
  {
    if locs != [] {
      FirstWithKeyFound(locs[1..], k);
    }
  }

  lemma {:induction false} FirstWithKeyAppend(locs: seq<Localidad>, loc: Localidad, k: string)
    ensures FirstWithKey(locs + [loc], k) ==
      if FirstWithKey(locs, k).Some? then FirstWithKey(locs, k)
      else if InScope(loc) && KeyOf(loc) == k then Some(loc)
      else None
    decreases |locs|
  {
    if locs != [] {
      assert (locs + [loc])[1..] == locs[1..] + [loc];
      FirstWithKeyAppend(locs[1..], loc, k);
    }
  }

  /** Every kept record is an in-scope record of the dataset. */
  lemma {:induction false} FirstOccurrencesInScope(locs: seq<Localidad>)
    ensures forall i :: 0 <= i < |FirstOccurrences(locs)| ==>
      FirstOccurrences(locs)[i] in locs && InScope(FirstOccurrences(locs)[i])
    decreases |locs|
  {
    if locs != [] {
      FirstOccurrencesInScope(locs[..|locs| - 1]);
    }
  }

  /** The kept records have pairwise distinct keys. */
  lemma {:induction false} FirstOccurrencesDistinct(locs: seq<Localidad>)
    ensures forall i, j :: 0 <= i < j < |FirstOccurrences(locs)| ==>
      KeyOf(FirstOccurrences(locs)[i]) != KeyOf(FirstOccurrences(locs)[j])
    decreases |locs|
  {
    if locs != [] {
      var kept := FirstOccurrences(locs[..|locs| - 1]);
      FirstOccurrencesDistinct(locs[..|locs| - 1]);
      var loc := locs[|locs| - 1];
      if InScope(loc) && KeyOf(loc) !in KeysOf(kept) {
        forall i | 0 <= i < |kept| ensures KeyOf(kept[i]) != KeyOf(loc) {
          assert KeyOf(kept[i]) in KeysOf(kept);
        }
      }
    }
  }

  /** Every in-scope record of the dataset has its key kept. */
  lemma {:induction false} FirstOccurrencesCover(locs: seq<Localidad>)
    ensures forall j :: 0 <= j < |locs| && InScope(locs[j]) ==> KeyOf(locs[j]) in KeysOf(FirstOccurrences(locs))
    decreases |locs|
  {
    if locs != [] {
      var init := locs[..|locs| - 1];
      var kept := FirstOccurrences(init);
      FirstOccurrencesCover(init);
      var loc := locs[|locs| - 1];
      forall j | 0 <= j < |locs| && InScope(locs[j])
        ensures KeyOf(locs[j]) in KeysOf(FirstOccurrences(locs))
      {
        if j < |locs| - 1 {
          assert locs[j] == init[j];
          assert KeyOf(locs[j]) in KeysOf(kept);
          var w :| 0 <= w < |kept| && KeyOf(kept[w]) == KeyOf(locs[j]);
          assert FirstOccurrences(locs)[w] == kept[w];
        } else if KeyOf(loc) !in KeysOf(kept) {
          assert FirstOccurrences(locs)[|kept|] == loc;
        }
      }
    }
  }

  /** For each key, the kept record is the first in-scope record of the
      dataset with that key. */
  lemma {:induction false} FirstOccurrencesFirst(locs: seq<Localidad>)
    ensures forall i :: 0 <= i < |FirstOccurrences(locs)| ==>
      FirstWithKey(locs, KeyOf(FirstOccurrences(locs)[i])) == Some(FirstOccurrences(locs)[i])
    decreases |locs|
  {
    if locs != [] {
      var init := locs[..|locs| - 1];
      var kept := FirstOccurrences(init);
      var loc := locs[|locs| - 1];
      assert locs == init + [loc];
      FirstOccurrencesFirst(init);
      forall i | 0 <= i < |FirstOccurrences(locs)|
        ensures FirstWithKey(locs, KeyOf(FirstOccurrences(locs)[i])) == Some(FirstOccurrences(locs)[i])
      {
        var e := FirstOccurrences(locs)[i];
        FirstWithKeyAppend(init, loc, KeyOf(e));
        if i == |kept| {
          assert e == loc && KeyOf(loc) !in KeysOf(kept);
          FirstWithKeyFound(init, KeyOf(loc));
          if FirstWithKey(init, KeyOf(loc)).Some? {
            var found := FirstWithKey(init, KeyOf(loc)).value;
            var j :| 0 <= j < |init| && init[j] == found;
            FirstOccurrencesCover(init);
            assert false;
          }
        } else {
          assert e == kept[i];
        }
      }
    }
  }

  /** `Array.from(uniqueMap.values()).map(...)`: each kept record with its key. */
  function EntriesOf(locs: seq<Localidad>): (r: seq<SearchEntry>)
    ensures |r| == |locs|
    ensures forall i :: 0 <= i < |r| ==> r[i] == SearchEntry(KeyOf(locs[i]), locs[i])
  {
    seq(|locs|, i requires 0 <= i < |locs| => SearchEntry(KeyOf(locs[i]), locs[i]))
  }

  // ---------------------------------------------------------------------
  // Order of the index.
  // ---------------------------------------------------------------------

  /** Keys are non-decreasing. */
  predicate Sorted(entries: seq<SearchEntry>) {
    forall i, j :: 0 <= i < j < |entries| ==> !Less(entries[j].key, entries[i].key)
  }

  /** Keys are strictly increasing. */
  predicate StrictlySorted(entries: seq<SearchEntry>) {
    forall i, j :: 0 <= i < j < |entries| ==> Less(entries[i].key, entries[j].key)
  }

  predicate DistinctKeys(entries: seq<SearchEntry>) {
    forall i, j :: 0 <= i < j < |entries| ==> entries[i].key != entries[j].key
  }

  /** Every entry is stored under the key of its record. */
  predicate Keyed(entries: seq<SearchEntry>) {
    forall i :: 0 <= i < |entries| ==> entries[i].key == KeyOf(entries[i].loc)
  }

  lemma StrictlySortedIsSorted(entries: seq<SearchEntry>)
    requires StrictlySorted(entries)
    ensures Sorted(entries) && DistinctKeys(entries)
  {
    forall i, j | 0 <= i < j < |entries|
      ensures !Less(entries[j].key, entries[i].key) && entries[i].key != entries[j].key
    {
      LessAsymmetric(entries[i].key, entries[j].key);
      LessIrreflexive(entries[i].key);
    }
  }

  /** `a <= b < c` gives `a < c`. */
  lemma LessEqLess(a: string, b: string, c: string)
    requires !Less(b, a) && Less(b, c)
    ensures Less(a, c)
  {
    if a != b {
      LessTotal(a, b);
      LessTransitive(a, b, c);
    }
  }

  /** The index built from a dataset: strictly sorted by key, holding exactly
      the kept records with their keys. */
  ghost predicate IsIndexOf(entries: seq<SearchEntry>, locs: seq<Localidad>) {
    StrictlySorted(entries) && multiset(entries) == multiset(EntriesOf(FirstOccurrences(locs)))
  }

  /** What the index promises about each entry: stored under its record's
      key, the record is in scope, and it is the first in-scope record of
      the dataset with that key. */
  lemma IndexEntriesSound(entries: seq<SearchEntry>, locs: seq<Localidad>)
    requires IsIndexOf(entries, locs)
    ensures Keyed(entries) && DistinctKeys(entries)
    ensures forall i :: 0 <= i < |entries| ==>
      entries[i].loc in locs && InScope(entries[i].loc)
      && FirstWithKey(locs, entries[i].key) == Some(entries[i].loc)
  {
    var kept := FirstOccurrences(locs);
    FirstOccurrencesInScope(locs);
    FirstOccurrencesFirst(locs);
    StrictlySortedIsSorted(entries);
    forall i | 0 <= i < |entries|
      ensures entries[i].key == KeyOf(entries[i].loc)
      ensures entries[i].loc in locs && InScope(entries[i].loc)
      ensures FirstWithKey(locs, entries[i].key) == Some(entries[i].loc)
    {
      assert entries[i] in multiset(entries);
      assert entries[i] in EntriesOf(kept);
      var w :| 0 <= w < |kept| && EntriesOf(kept)[w] == entries[i];
    }
  }

  /** Every in-scope record of the dataset is represented: the index holds
      an entry under its key, and that entry's record is the first in-scope
      one with the key. */
  lemma IndexCoversScope(entries: seq<SearchEntry>, locs: seq<Localidad>, j: int)
    requires IsIndexOf(entries, locs)
    requires 0 <= j < |locs| && InScope(locs[j])
    ensures exists i :: (0 <= i < |entries| && entries[i].key == KeyOf(locs[j]) &&
                         Some(entries[i].loc) == FirstWithKey(locs, KeyOf(locs[j])))
  {
    var kept := FirstOccurrences(locs);
    FirstOccurrencesCover(locs);
    FirstOccurrencesFirst(locs);
    var w :| 0 <= w < |kept| && KeyOf(kept[w]) == KeyOf(locs[j]);
    var e := EntriesOf(kept)[w];
    assert e in multiset(EntriesOf(kept));
    assert e in entries;
    var i :| 0 <= i < |entries| && entries[i] == e;
  }

  // ---------------------------------------------------------------------
  // Building: deduplication, sorting in place, the cache.
  // ---------------------------------------------------------------------

  /** The `forEach` over the dataset: skip records out of scope, and put a
      record in the map when its key is new. Returns the map's values in
      insertion order. */
  method UniqueInScope(localidades: seq<Localidad>) returns (unique: seq<Localidad>)
    ensures unique == FirstOccurrences(localidades)
  {
    var uniqueMap: map<string, Localidad> := map[];
    unique := [];
    var i := 0;
    while i < |localidades|
      invariant 0 <= i <= |localidades|
      invariant unique == FirstOccurrences(localidades[..i])
      invariant uniqueMap.Keys == KeysOf(unique)
    {
      assert localidades[..i + 1][..i] == localidades[..i];
      var loc := localidades[i];
      var provincia := Normalize(ProvinceName(loc));
      if Contains(provincia, Scope) {
        var key := Normalize(loc.nombre);
        if key !in uniqueMap {
          uniqueMap := uniqueMap[key := loc];
          assert KeysOf(unique + [loc]) == KeysOf(unique) + {key} by {
            forall k | k in KeysOf(unique + [loc]) ensures k in KeysOf(unique) + {key} {
              var w :| 0 <= w < |unique| + 1 && KeyOf((unique + [loc])[w]) == k;
              if w < |unique| {
                assert KeyOf(unique[w]) in KeysOf(unique);
              }
            }
            forall k | k in KeysOf(unique) ensures k in KeysOf(unique + [loc]) {
              var w :| 0 <= w < |unique| && KeyOf(unique[w]) == k;
              assert (unique + [loc])[w] == unique[w];
            }
            assert (unique + [loc])[|unique|] == loc;
          }
          unique := unique + [loc];
        }
      }
      i := i + 1;
    }
    assert localidades[..i] == localidades;
  }

  method Swap(a: array<SearchEntry>, i: int, j: int)
    requires 0 <= i < a.Length && 0 <= j < a.Length
    modifies a
    ensures a[..] == old(a[..])[i := old(a[j])][j := old(a[i])]
    ensures multiset(a[..]) == old(multiset(a[..]))
  {
    a[i], a[j] := a[j], a[i];
  }

  /** Moves `a[i]` down into the sorted run `a[..i]`. */
  method InsertIntoSorted(a: array<SearchEntry>, i: int)
    requires 0 <= i < a.Length
    requires StrictlySorted(a[..i]) && DistinctKeys(a[..])
    modifies a
    ensures StrictlySorted(a[..i + 1]) && DistinctKeys(a[..])
    ensures multiset(a[..]) == old(multiset(a[..]))
    ensures a[i + 1..] == old(a[i + 1..])
  {
    var j := i;
    while j > 0 && Less(a[j].key, a[j - 1].key)
      invariant 0 <= j <= i
      invariant forall p, q :: 0 <= p < q <= i && p != j && q != j ==> Less(a[p].key, a[q].key)
      invariant forall q :: j < q <= i ==> Less(a[j].key, a[q].key)
      invariant DistinctKeys(a[..])
      invariant multiset(a[..]) == old(multiset(a[..]))
      invariant a[i + 1..] == old(a[i + 1..])
    {
      Swap(a, j - 1, j);
      j := j - 1;
    }
    if j > 0 {
      assert a[j - 1].key != a[j].key;
      LessTotal(a[j - 1].key, a[j].key);
      forall p | 0 <= p < j - 1 ensures Less(a[p].key, a[j].key) {
        LessTransitive(a[p].key, a[j - 1].key, a[j].key);
      }
    }
  }

  /** `entries.sort(...)` by key, in place. The keys are distinct, so the
      order the comparator gives ties does not arise. */
  method SortByKey(a: array<SearchEntry>)
    requires DistinctKeys(a[..])
    modifies a
    ensures StrictlySorted(a[..])
    ensures multiset(a[..]) == old(multiset(a[..]))
  {
    var i := 0;
    while i < a.Length
      invariant 0 <= i <= a.Length
      invariant StrictlySorted(a[..i]) && DistinctKeys(a[..])
      invariant multiset(a[..]) == old(multiset(a[..]))
    {
      InsertIntoSorted(a, i);
      i := i + 1;
    }
    assert a[..i] == a[..];
  }

  /** `lowerBound`: on entries sorted by key, the first position whose key is
      not below `target`, or the length when there is none. */
  method LowerBound(entries: seq<SearchEntry>, target: string) returns (lo: nat)
    requires Sorted(entries)
    ensures lo <= |entries|
    ensures forall j :: 0 <= j < lo ==> Less(entries[j].key, target)
    ensures forall j :: lo <= j < |entries| ==> !Less(entries[j].key, target)
  {
    lo := 0;
    var hi := |entries|;
    while lo < hi
      invariant 0 <= lo <= hi <= |entries|
      invariant forall j :: 0 <= j < lo ==> Less(entries[j].key, target)
      invariant forall j :: hi <= j < |entries| ==> !Less(entries[j].key, target)
      decreases hi - lo
    {
      var mid := (lo + hi) / 2;
      if Less(entries[mid].key, target) {
        forall j | 0 <= j < mid ensures Less(entries[j].key, target) {
          LessEqLess(entries[j].key, entries[mid].key, target);
        }
        lo := mid + 1;
      } else {
        forall j | mid < j < |entries| ensures !Less(entries[j].key, target) {
          if Less(entries[j].key, target) {
            LessEqLess(entries[mid].key, entries[j].key, target);
          }
        }
        hi := mid;
      }
    }
  }

  // ---------------------------------------------------------------------
  // Querying.
  // ---------------------------------------------------------------------

  /** The entries whose key starts with `p`, in index order. */
  function Matching(entries: seq<SearchEntry>, p: string): seq<SearchEntry>
    decreases |entries|
  {
    if entries == [] then []
    else
      var last := entries[|entries| - 1];
      Matching(entries[..|entries| - 1], p) + (if StartsWith(last.key, p) then [last] else [])
  }

  /** At most `n` elements from the front of `s`; none when `n <= 0`. */
  function Take<T>(s: seq<T>, n: int): (r: seq<T>)
    ensures r <= s
    ensures |r| == if n <= 0 then 0 else if n < |s| then n else |s|
  {
    if n <= 0 then [] else if n < |s| then s[..n] else s
  }

  function Locs(entries: seq<SearchEntry>): (r: seq<Localidad>)
    ensures |r| == |entries|
    ensures forall i :: 0 <= i < |r| ==> r[i] == entries[i].loc
  {
    seq(|entries|, i requires 0 <= i < |entries| => entries[i].loc)
  }

  /** What `searchLocalidades(query, limit)` answers from an index: nothing
      for a normalised query under three characters, and otherwise the
      records of the first `limit` entries whose key starts with the
      normalised query. */
  function SearchResult(entries: seq<SearchEntry>, query: string, limit: int): (r: seq<Localidad>)
    ensures limit <= 0 ==> r == []
    ensures |r| <= limit || r == []
  {
    var p := Normalize(query);
    if |p| < MinQueryLength then [] else Locs(Take(Matching(entries, p), limit))
  }

  lemma MatchingStep(entries: seq<SearchEntry>, p: string, i: int)
    requires 0 <= i < |entries|
    ensures Matching(entries[..i + 1], p) ==
      Matching(entries[..i], p) + (if StartsWith(entries[i].key, p) then [entries[i]] else [])
  {
    assert entries[..i + 1][..i] == entries[..i];
  }

  lemma {:induction false} MatchingSound(entries: seq<SearchEntry>, p: string)
    ensures forall k :: 0 <= k < |Matching(entries, p)| ==>
      Matching(entries, p)[k] in entries && StartsWith(Matching(entries, p)[k].key, p)
    decreases |entries|
  {
    if entries != [] {
      MatchingSound(entries[..|entries| - 1], p);
    }
  }

  lemma {:induction false} MatchingComplete(entries: seq<SearchEntry>, p: string)
    ensures forall i :: 0 <= i < |entries| && StartsWith(entries[i].key, p) ==> entries[i] in Matching(entries, p)
    decreases |entries|
  {
    if entries != [] {
      MatchingComplete(entries[..|entries| - 1], p);
    }
  }

  lemma {:induction false} MatchingSorted(entries: seq<SearchEntry>, p: string)
    requires StrictlySorted(entries)
    ensures StrictlySorted(Matching(entries, p))
    decreases |entries|
  {
    if entries != [] {
      var n := |entries|;
      var init := entries[..n - 1];
      MatchingSorted(init, p);
      MatchingSound(init, p);
      var m := Matching(init, p);
      forall k | 0 <= k < |m| ensures Less(m[k].key, entries[n - 1].key) {
        var w :| 0 <= w < |init| && init[w] == m[k];
      }
    }
  }

  /** The matches among the first `i` entries lead the matches among the
      first `j`. */
  lemma {:induction false} MatchingGrows(entries: seq<SearchEntry>, p: string, i: int, j: int)
    requires 0 <= i <= j <= |entries|
    ensures Matching(entries[..i], p) <= Matching(entries[..j], p)
    decreases j - i
  {
    if i < j {
      MatchingGrows(entries, p, i, j - 1);
      MatchingStep(entries, p, j - 1);
    }
  }

  lemma {:induction false} MatchingNone(entries: seq<SearchEntry>, p: string)
    requires forall j :: 0 <= j < |entries| ==> !StartsWith(entries[j].key, p)
    ensures Matching(entries, p) == []
    decreases |entries|
  {
    if entries != [] {
      MatchingNone(entries[..|entries| - 1], p);
    }
  }

  /** On sorted entries, once a key at or above `p` fails to start with `p`,
      no later key does: the matches end there. */
  lemma MatchingStops(entries: seq<SearchEntry>, p: string, i: int)
    requires Sorted(entries)
    requires 0 <= i < |entries|
    requires !Less(entries[i].key, p) && !StartsWith(entries[i].key, p)
    ensures Matching(entries, p) == Matching(entries[..i], p)
  {
    var n := |entries|;
    var k := i;
    while k < n
      invariant i <= k <= n
      invariant Matching(entries[..k], p) == Matching(entries[..i], p)
    {
      if StartsWith(entries[k].key, p) {
        if k > i {
          PrefixBetween(p, entries[i].key, entries[k].key);
        }
      }
      MatchingStep(entries, p, k);
      k := k + 1;
    }
    assert entries[..n] == entries;
  }

  /** Lines 111-120 of the search: from the lower bound, collect records
      while keys start with the prefix and fewer than `limit` are collected.
      The result is exactly the first `limit` matches of the whole index. */
  method PrefixScan(entries: seq<SearchEntry>, prefix: string, limit: int) returns (results: seq<Localidad>)
    requires Sorted(entries)
    ensures results == Locs(Take(Matching(entries, prefix), limit))
  {
    var start := LowerBound(entries, prefix);
    forall j | 0 <= j < start ensures !StartsWith(entries[..start][j].key, prefix) {
      if StartsWith(entries[j].key, prefix) {
        PrefixNotLess(entries[j].key, prefix);
      }
    }
    MatchingNone(entries[..start], prefix);
    results := [];
    ghost var matched: seq<SearchEntry> := [];
    ghost var stopped := false;
    var i := start;
    while i < |entries| && |results| < limit
      invariant start <= i <= |entries|
      invariant matched == Matching(entries[..i], prefix)
      invariant results == Locs(matched)
      invariant |results| <= limit || results == []
      invariant !stopped
    {
      if !StartsWith(entries[i].key, prefix) {
        MatchingStops(entries, prefix, i);
        stopped := true;
        break;
      }
      MatchingStep(entries, prefix, i);
      matched := matched + [entries[i]];
      results := results + [entries[i].loc];
      i := i + 1;
    }
    MatchingGrows(entries, prefix, i, |entries|);
    assert entries[..|entries|] == entries;
    ghost var all := Matching(entries, prefix);
    assert stopped ==> matched == all;
    assert i == |entries| ==> matched == all;
    TakeLeading(matched, all, limit);
  }

  lemma TakeLeading<T>(m: seq<T>, full: seq<T>, limit: int)
    requires m <= full
    requires |m| <= limit || m == []
    requires m == full || |m| >= limit
    ensures Take(full, limit) == m
  {
  }

  /** Every result's normalised name starts with the normalised query. */
  lemma SearchResultMatchesQuery(entries: seq<SearchEntry>, query: string, limit: int)
    requires Keyed(entries)
    ensures forall k :: 0 <= k < |SearchResult(entries, query, limit)| ==>
      StartsWith(Normalize(SearchResult(entries, query, limit)[k].nombre), Normalize(query))
  {
    var p := Normalize(query);
    if |p| >= MinQueryLength {
      var m := Matching(entries, p);
      MatchingSound(entries, p);
      forall k | 0 <= k < |Take(m, limit)|
        ensures StartsWith(Normalize(Take(m, limit)[k].loc.nombre), p)
      {
        assert Take(m, limit)[k] == m[k];
        var w :| 0 <= w < |entries| && entries[w] == m[k];
      }
    }
  }

  /** Results come in strictly ascending order of normalised name. */
  lemma SearchResultAscending(entries: seq<SearchEntry>, query: string, limit: int)
    requires StrictlySorted(entries) && Keyed(entries)
    ensures forall a, b :: 0 <= a < b < |SearchResult(entries, query, limit)| ==>
      Less(Normalize(SearchResult(entries, query, limit)[a].nombre), Normalize(SearchResult(entries, query, limit)[b].nombre))
  {
    var p := Normalize(query);
    if |p| >= MinQueryLength {
      var m := Matching(entries, p);
      MatchingSorted(entries, p);
      MatchingSound(entries, p);
      forall k | 0 <= k < |m| ensures m[k].key == KeyOf(m[k].loc) {
        var w :| 0 <= w < |entries| && entries[w] == m[k];
      }
      var t := Take(m, limit);
      assert forall k :: 0 <= k < |t| ==> t[k] == m[k];
    }
  }

  /** Every result is an in-scope record of the dataset, and the first
      in-scope one with its normalised name: a record outside the province
      is never returned. */
  lemma SearchResultInScope(entries: seq<SearchEntry>, locs: seq<Localidad>, query: string, limit: int)
    requires IsIndexOf(entries, locs)
    ensures forall k :: 0 <= k < |SearchResult(entries, query, limit)| ==>
      var loc := SearchResult(entries, query, limit)[k];
      loc in locs && InScope(loc) && FirstWithKey(locs, KeyOf(loc)) == Some(loc)
  {
    var p := Normalize(query);
    IndexEntriesSound(entries, locs);
    if |p| >= MinQueryLength {
      var m := Matching(entries, p);
      MatchingSound(entries, p);
      forall k | 0 <= k < |Take(m, limit)|
        ensures var loc := Take(m, limit)[k].loc;
          loc in locs && InScope(loc) && FirstWithKey(locs, KeyOf(loc)) == Some(loc)
      {
        assert Take(m, limit)[k] == m[k];
        var w :| 0 <= w < |entries| && entries[w] == m[k];
      }
    }
  }

  /** Prefix correctness: when the matches fit within the limit, a query of
      at least three normalised characters that is a prefix of an in-scope
      record's normalised name finds the first record with that name. */
  lemma SearchFindsEveryPrefix(entries: seq<SearchEntry>, locs: seq<Localidad>, j: int, query: string, limit: int)
    requires IsIndexOf(entries, locs)
    requires 0 <= j < |locs| && InScope(locs[j])
    requires |Normalize(query)| >= MinQueryLength && StartsWith(KeyOf(locs[j]), Normalize(query))
    requires |Matching(entries, Normalize(query))| <= limit
    ensures FirstWithKey(locs, KeyOf(locs[j])).Some?
    ensures FirstWithKey(locs, KeyOf(locs[j])).value in SearchResult(entries, query, limit)
  {
    var p := Normalize(query);
    IndexCoversScope(entries, locs, j);
    var i :| 0 <= i < |entries| && entries[i].key == KeyOf(locs[j]) &&
             Some(entries[i].loc) == FirstWithKey(locs, KeyOf(locs[j]));
    MatchingComplete(entries, p);
    var m := Matching(entries, p);
    assert entries[i] in m;
    var w :| 0 <= w < |m| && m[w] == entries[i];
    assert Take(m, limit) == m;
    assert Locs(m)[w] == entries[i].loc;
  }

  /** The search does not see letter case in the query. */
  lemma SearchIgnoresCase(entries: seq<SearchEntry>, query: string, limit: int)
    ensures SearchResult(entries, ToLower(query), limit) == SearchResult(entries, query, limit)
  {
    NormalizeIgnoresCase(query);
  }

  /** `formatLocalidad`: the name, then the department name if non-empty,
      then the province name if non-empty, joined with " - ". */
  function FormatLocalidad(loc: Localidad): (r: string)
    ensures r == loc.nombre
      + (if loc.departamento.Some? && loc.departamento.value.nombre != "" then " - " + loc.departamento.value.nombre else "")
      + (if loc.provincia.Some? && loc.provincia.value.nombre != "" then " - " + loc.provincia.value.nombre else "")
  {
    var parts := [loc.nombre]
      + (if loc.departamento.Some? && loc.departamento.value.nombre != "" then [loc.departamento.value.nombre] else [])
      + (if loc.provincia.Some? && loc.provincia.value.nombre != "" then [loc.provincia.value.nombre] else []);
    JoinShort(parts, " - ");
    Join(parts, " - ")
  }

  /** The module-level `searchIndex` cache and the functions that use it. */
  class LocalityIndex {
    /** `searchIndex`: `None` stands for `null`, before a successful build. */
    var searchIndex: Option<seq<SearchEntry>>
    /** The dataset the cached index was built from. */
    ghost var dataset: seq<Localidad>

    ghost predicate Valid()
      reads this
    {
      searchIndex.Some? ==> IsIndexOf(searchIndex.value, dataset)
    }

    constructor ()
      ensures Valid() && searchIndex == None
    {
      searchIndex := None;
      dataset := [];
    }

    /** `buildIndex`: the cached index when there is one; otherwise load,
        filter, deduplicate, sort and cache. A failed load gives `[]` and
        leaves the cache empty, so a later call tries again. */
    method BuildIndex(fetch: FetchOutcome) returns (entries: seq<SearchEntry>)
      requires Valid()
      modifies this
      ensures Valid()
      ensures old(searchIndex).Some? ==>
        entries == old(searchIndex).value && searchIndex == old(searchIndex) && dataset == old(dataset)
      ensures old(searchIndex).None? && fetch.FetchFailed? ==> entries == [] && searchIndex == None
      ensures old(searchIndex).None? && fetch.Fetched? ==>
        searchIndex == Some(entries) && dataset == fetch.localidades && IsIndexOf(entries, fetch.localidades)
    {
      if searchIndex.Some? {
        return searchIndex.value;
      }
      if fetch.FetchFailed? {
        return [];
      }
      var unique := UniqueInScope(fetch.localidades);
      var built := EntriesOf(unique);
      FirstOccurrencesDistinct(fetch.localidades);
      var a := new SearchEntry[|built|](i requires 0 <= i < |built| => built[i]);
      assert a[..] == built;
      SortByKey(a);
      entries := a[..];
      searchIndex := Some(entries);
      dataset := fetch.localidades;
    }

    /** `searchLocalidades`: a normalised query under three characters is
        answered with `[]` without building; otherwise the index is built
        (or taken from the cache) and scanned. */
    method SearchLocalidades(query: string, limit: int, fetch: FetchOutcome) returns (results: seq<Localidad>)
      requires Valid()
      modifies this
      ensures Valid()
      ensures |Normalize(query)| < MinQueryLength ==>
        results == [] && searchIndex == old(searchIndex) && dataset == old(dataset)
      ensures old(searchIndex).Some? ==> searchIndex == old(searchIndex) && dataset == old(dataset)
      ensures |Normalize(query)| >= MinQueryLength && old(searchIndex).None? && fetch.FetchFailed? ==>
        searchIndex == None
      ensures |Normalize(query)| >= MinQueryLength && old(searchIndex).None? && fetch.Fetched? ==>
        searchIndex.Some? && dataset == fetch.localidades
      ensures results == SearchResult(searchIndex.GetOr([]), query, limit)
    {
      var prefix := Normalize(query);
      if |prefix| < MinQueryLength {
        return [];
      }
      var entries := BuildIndex(fetch);
      if |entries| == 0 {
        return [];
      }
      if searchIndex.Some? {
        StrictlySortedIsSorted(entries);
      }
      results := PrefixScan(entries, prefix, limit);
    }

    /** `searchLocalidades(query)` called without a limit, as the search
        hook calls it: the limit defaults to twenty. */
    method Search(query: string, fetch: FetchOutcome) returns (results: seq<Localidad>)
      requires Valid()
      modifies this
      ensures Valid()
      ensures |results| <= DefaultLimit
      ensures old(searchIndex).Some? ==> searchIndex == old(searchIndex) && dataset == old(dataset)
      ensures results == SearchResult(searchIndex.GetOr([]), query, DefaultLimit)
    {
      results := SearchLocalidades(query, DefaultLimit, fetch);
    }

    /** `preloadLocalidadesIndex`: build (or reuse) the index ahead of the
        first query. */
    method Preload(fetch: FetchOutcome)
      requires Valid()
      modifies this
      ensures Valid()
      ensures old(searchIndex).Some? ==> searchIndex == old(searchIndex) && dataset == old(dataset)
      ensures old(searchIndex).None? && fetch.FetchFailed? ==> searchIndex == None
      ensures old(searchIndex).None? && fetch.Fetched? ==>
        searchIndex.Some? && dataset == fetch.localidades
    {
      var _ := BuildIndex(fetch);
    }
  }
}
