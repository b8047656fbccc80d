/** The JavaScript string operations the application relies on, on strings
    as sequences of characters: `startsWith`, `includes`, `indexOf`, the `<`
    comparison, `split` and `join` on a separator, `toLowerCase` for the
    Latin letters, and `String(n)` for integers. */
module Text {
  import opened Wrappers

  /** A JavaScript string or `undefined` used as a condition. */
  predicate Truthy(o: Option<string>) {
    o.Some? && o.value != ""
  }

  /** `s.startsWith(p)`. */
  predicate StartsWith(s: string, p: string) {
    |p| <= |s| && s[..|p|] == p
  }

  /** `sub` occurs in `s` at position `i`. */
  predicate OccursAt(s: string, sub: string, i: int) {
    0 <= i && i + |sub| <= |s| && s[i..i + |sub|] == sub
  }

  /** `s.includes(sub)`. */
  predicate Contains(s: string, sub: string) {
    exists i | 0 <= i <= |s| - |sub| :: OccursAt(s, sub, i)
  }

  /** `s.indexOf(sub, k)`: the first position at or after `k` where `sub`
      occurs, or -1. */
  function IndexFrom(s: string, sub: string, k: nat): (r: int)
    ensures r == -1 || (k <= r && OccursAt(s, sub, r))
    ensures r != -1 ==> forall j :: k <= j < r ==> !OccursAt(s, sub, j)
    ensures r == -1 ==> forall j :: k <= j ==> !OccursAt(s, sub, j)
    decreases |s| - k
  {
    if k + |sub| > |s| then -1
    else if s[k..k + |sub|] == sub then k
    else IndexFrom(s, sub, k + 1)
  }

  /** `s.indexOf(sub)`. */
  function IndexOf(s: string, sub: string): (r: int)
    ensures r == -1 <==> !Contains(s, sub)
    ensures r != -1 ==> OccursAt(s, sub, r) && forall j :: 0 <= j < r ==> !OccursAt(s, sub, j)
  {
    IndexFrom(s, sub, 0)
  }

  /** JavaScript's `a < b` on strings: lexicographic on character codes, a
      proper prefix coming first. */
  predicate Less(a: string, b: string)
    decreases |a|
  {
    if a == [] then b != []
    else if b == [] then false
    else a[0] < b[0] || (a[0] == b[0] && Less(a[1..], b[1..]))
  }

  lemma {:induction false} LessIrreflexive(a: string)
    ensures !Less(a, a)
  {
    if a != [] {
      LessIrreflexive(a[1..]);
    }
  }

  lemma {:induction false} LessTransitive(a: string, b: string, c: string)
    requires Less(a, b) && Less(b, c)
    ensures Less(a, c)
  {
    if a != [] && b != [] && c != [] && a[0] == b[0] && b[0] == c[0] {
      LessTransitive(a[1..], b[1..], c[1..]);
    }
  }

  lemma {:induction false} LessTotal(a: string, b: string)
    requires a != b
    ensures Less(a, b) || Less(b, a)
  {
    if a != [] && b != [] && a[0] == b[0] {
      assert a == [a[0]] + a[1..] && b == [b[0]] + b[1..];
      LessTotal(a[1..], b[1..]);
    }
  }

  lemma LessAsymmetric(a: string, b: string)
    requires Less(a, b)
    ensures !Less(b, a)
  {
    if Less(b, a) {
      LessTransitive(a, b, a);
      LessIrreflexive(a);
    }
  }

  /** A string is never below one of its prefixes. */
  lemma {:induction false} PrefixNotLess(s: string, p: string)
    requires StartsWith(s, p)
    ensures !Less(s, p)
  {
    if p != [] {
      assert s[1..][..|p| - 1] == p[1..];
      PrefixNotLess(s[1..], p[1..]);
    }
  }

  /** The strings with prefix `p` form an interval: a string between `p` and
      a string with prefix `p` has prefix `p` too. */
  lemma {:induction false} PrefixBetween(p: string, a: string, b: string)
    requires !Less(a, p) && !Less(b, a) && StartsWith(b, p)
    ensures StartsWith(a, p)
  {
    if p != [] {
      assert a != [];
      assert a[0] == p[0];
      assert b[1..][..|p| - 1] == p[1..];
      PrefixBetween(p[1..], a[1..], b[1..]);
      assert a == [a[0]] + a[1..];
    }
  }

  /** `s.split(sep)` for a one-character separator: always at least one
      part, an empty string giving `[""]`. */
  function Split(s: string, sep: char): (parts: seq<string>)
    ensures |parts| >= 1
    decreases |s|
  {
    if s == [] then [""]
    else
      var rest := Split(s[1..], sep);
      if s[0] == sep then [""] + rest
      else [[s[0]] + rest[0]] + rest[1..]
  }

  /** `parts.join(sep)`. */
  function Join(parts: seq<string>, sep: string): string
    decreases |parts|
  {
    if parts == [] then ""
    else if |parts| == 1 then parts[0]
    else parts[0] + sep + Join(parts[1..], sep)
  }

  lemma JoinShort(parts: seq<string>, sep: string)
    ensures |parts| == 1 ==> Join(parts, sep) == parts[0]
    ensures |parts| == 2 ==> Join(parts, sep) == parts[0] + sep + parts[1]
    ensures |parts| == 3 ==> Join(parts, sep) == parts[0] + sep + parts[1] + sep + parts[2]
  {
    if |parts| == 3 {
      assert parts[1..][1..] == [parts[2]];
    }
  }

  lemma {:induction false} SplitPrepend(x: string, r: string, sep: char)
    requires sep !in x
    ensures Split(x + r, sep) == [x + Split(r, sep)[0]] + Split(r, sep)[1..]
    decreases |x|
  {
    if x != [] {
      assert (x + r)[1..] == x[1..] + r;
      SplitPrepend(x[1..], r, sep);
      assert [x[0]] + (x[1..] + Split(r, sep)[0]) == x + Split(r, sep)[0];
    } else {
      assert x + r == r && x + Split(r, sep)[0] == Split(r, sep)[0];
      assert Split(r, sep) == [Split(r, sep)[0]] + Split(r, sep)[1..];
    }
  }

  /** Splitting a join gives the parts back when none contains the
      separator. */
  lemma {:induction false} SplitJoin(parts: seq<string>, sep: char)
    requires parts != []
    requires forall i :: 0 <= i < |parts| ==> sep !in parts[i]
    ensures Split(Join(parts, [sep]), sep) == parts
    decreases |parts|
  {
    if |parts| == 1 {
      SplitPrepend(parts[0], "", sep);
      assert parts[0] + "" == parts[0];
    } else {
      var tail := Join(parts[1..], [sep]);
      SplitJoin(parts[1..], sep);
      assert Join(parts, [sep]) == parts[0] + ([sep] + tail);
      SplitPrepend(parts[0], [sep] + tail, sep);
      assert ([sep] + tail)[1..] == tail;
      assert parts[0] + "" == parts[0];
      assert parts == [parts[0]] + parts[1..];
    }
  }

  /** `toLowerCase` on one character, for the ASCII and Latin-1 letters. */
  function LowerChar(c: char): char {
    if 'A' <= c <= 'Z' then (c as int + 32) as char
    else if '\U{00C0}' <= c <= '\U{00DE}' && c != '\U{00D7}' then (c as int + 32) as char
    else c
  }

  /** `s.toLowerCase()`, character by character. */
  function ToLower(s: string): (r: string)
    ensures |r| == |s|
    ensures forall i :: 0 <= i < |s| ==> r[i] == LowerChar(s[i])
  {
    seq(|s|, i requires 0 <= i < |s| => LowerChar(s[i]))
  }

  lemma ToLowerSlice(s: string, i: int, j: int)
    requires 0 <= i <= j <= |s|
    ensures ToLower(s[i..j]) == ToLower(s)[i..j]
  {
  }

  function DigitChar(d: nat): char
    requires d < 10
  {
    ('0' as int + d) as char
  }

  function NatToString(n: nat): (r: string)
    ensures |r| >= 1
  {
    if n < 10 then [DigitChar(n)] else NatToString(n / 10) + [DigitChar(n % 10)]
  }

  /** `String(n)` for an integer number. */
  function IntToString(n: int): (r: string)
    ensures |r| >= 1
  {
    if n < 0 then "-" + NatToString(-n) else NatToString(n)
  }

  predicate IsDigit(c: char) {
    '0' <= c <= '9'
  }

  /** The value of a string of decimal digits, or `None`. */
  function ParseNat(s: string): Option<nat>
    decreases |s|
  {
    if s == [] || !IsDigit(s[|s| - 1]) then None
    else
      var d := s[|s| - 1] as int - '0' as int;
      if |s| == 1 then Some(d)
      else match ParseNat(s[..|s| - 1])
        case None => None
        case Some(v) => Some(v * 10 + d)
  }

  /** `Number(s)` for a string holding an integer in decimal notation with
      an optional minus sign; `None` for any other string. */
  function ParseInt(s: string): Option<int> {
    if |s| > 0 && s[0] == '-' then
      match ParseNat(s[1..])
      case None => None
      case Some(v) => Some(-(v as int))
    else
      match ParseNat(s)
      case None => None
      case Some(v) => Some(v as int)
  }

  lemma {:induction false} NatToStringDigits(n: nat)
    ensures forall i :: 0 <= i < |NatToString(n)| ==> IsDigit(NatToString(n)[i])
  {
    if n >= 10 {
      NatToStringDigits(n / 10);
    }
  }

  lemma {:induction false} ParseNatToString(n: nat)
    ensures ParseNat(NatToString(n)) == Some(n)
  {
    if n >= 10 {
      var s := NatToString(n);
      assert s[..|s| - 1] == NatToString(n / 10);
      ParseNatToString(n / 10);
      NatToStringDigits(n / 10);
    }
  }

  /** Reading back the decimal text of an integer gives the integer. */
  lemma ParseIntToString(n: int)
    ensures ParseInt(IntToString(n)) == Some(n)
  {
    if n < 0 {
      ParseNatToString(-n);
      ParseNegative(NatToString(-n), -n);
    } else {
      ParseNatToString(n);
      NatToStringDigits(n);
      ParseNonNegative(NatToString(n), n);
    }
  }

  lemma ParseNegative(t: string, v: nat)
    requires ParseNat(t) == Some(v)
    ensures ParseInt("-" + t) == Some(-(v as int))
  {
    assert ("-" + t)[1..] == t;
  }

  lemma ParseNonNegative(t: string, v: nat)
    requires ParseNat(t) == Some(v) && IsDigit(t[0])
    ensures ParseInt(t) == Some(v)
  {
  }
}
