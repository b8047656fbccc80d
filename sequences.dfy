/** List operations the application performs on arrays: dropping every
    occurrence of a value (`filter(x => x !== v)`) and removing one element
    at a position (`splice(i, 1)`). */
module Sequences {

  /** `s.filter(y => y !== x)`. */
  function Without<T(==)>(s: seq<T>, x: T): seq<T>
    decreases |s|
  {
    if s == [] then []
    else if s[0] == x then Without(s[1..], x)
    else [s[0]] + Without(s[1..], x)
  }

  /** Removal drops every occurrence of `x` and keeps every other value as
      often as it was there. */
  lemma {:induction false} WithoutCounts<T>(s: seq<T>, x: T)
    ensures multiset(Without(s, x))[x] == 0
    ensures forall y :: y != x ==> multiset(Without(s, x))[y] == multiset(s)[y]
    decreases |s|
  {
    if s != [] {
      WithoutCounts(s[1..], x);
      assert s == [s[0]] + s[1..];
    }
  }

  /** A value is left after removal exactly when it is another value of
      the list. */
  lemma WithoutMembers<T>(s: seq<T>, x: T)
    ensures forall y :: y in Without(s, x) <==> y in s && y != x
  {
    WithoutCounts(s, x);
    assert forall y :: y in Without(s, x) <==> multiset(Without(s, x))[y] > 0;
  }

  /** Removal works piece by piece, so what remains keeps its relative
      order. */
  lemma {:induction false} WithoutAppend<T>(a: seq<T>, b: seq<T>, x: T)
    ensures Without(a + b, x) == Without(a, x) + Without(b, x)
    decreases |a|
  {
    if a == [] {
      assert a + b == b;
    } else {
      assert (a + b)[1..] == a[1..] + b;
      WithoutAppend(a[1..], b, x);
    }
  }

  /** Removing a value that is not there changes nothing. */
  lemma {:induction false} WithoutAbsent<T>(s: seq<T>, x: T)
    requires x !in s
    ensures Without(s, x) == s
    decreases |s|
  {
    if s != [] {
      WithoutAbsent(s[1..], x);
      assert s == [s[0]] + s[1..];
    }
  }

  /** The position `splice(start, ...)` starts at: a negative start counts
      from the end, and a start beyond either end is clamped. */
  function SpliceStart(n: nat, start: int): (k: nat)
    ensures k <= n
    ensures 0 <= start <= n ==> k == start
    ensures start > n ==> k == n
    ensures -(n as int) <= start < 0 ==> k == n + start
    ensures start < -(n as int) ==> k == 0
  {
    if start < 0 then (if n + start < 0 then 0 else n + start)
    else if start > n then n
    else start
  }

  /** `s.splice(i, 1)`, as the list left behind. */
  function RemoveAt<T>(s: seq<T>, i: int): (r: seq<T>)
    ensures 0 <= i < |s| ==> |r| == |s| - 1
    ensures 0 <= i < |s| ==> forall k :: 0 <= k < i ==> r[k] == s[k]
    ensures 0 <= i < |s| ==> forall k :: i <= k < |r| ==> r[k] == s[k + 1]
    ensures i >= |s| ==> r == s
  {
    var k := SpliceStart(|s|, i);
    if k < |s| then s[..k] + s[k + 1..] else s
  }

  /** An index from the end removes the element it counts to. */
  lemma RemoveAtFromEnd<T>(s: seq<T>, i: int)
    requires -|s| <= i < 0
    ensures RemoveAt(s, i) == RemoveAt(s, |s| + i)
  {
  }

  /** Removing an element keeps the others as a multiset. */
  lemma RemoveAtMultiset<T>(s: seq<T>, i: int)
    requires 0 <= i < |s|
    ensures multiset(RemoveAt(s, i)) + multiset{s[i]} == multiset(s)
  {
    assert s == s[..i] + [s[i]] + s[i + 1..];
  }
}
