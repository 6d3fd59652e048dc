/** Small generic operations on sequences used across the model. */
module Seqs {
  /** No element occurs twice. */
  predicate Distinct<T(==)>(s: seq<T>) {
    forall i, j :: 0 <= i < j < |s| ==> s[i] != s[j]
  }

  /** `indexOf`: the position of the first occurrence of `x`, or |s| when
      there is none (where JavaScript answers -1). */
  function IndexOf<T(==)>(s: seq<T>, x: T): (k: nat)
    ensures k <= |s|
    ensures k < |s| <==> x in s
    ensures k < |s| ==> s[k] == x
    ensures forall i :: 0 <= i < k ==> s[i] != x
  {
    if s == [] then 0
    else if s[0] == x then 0
    else 1 + IndexOf(s[1..], x)
  }

  /** Removal of the first occurrence of `x`, if any: `splice(indexOf(x), 1)`,
      and `replace` with a one-character string pattern. */
  function RemoveFirst<T(==)>(s: seq<T>, x: T): (r: seq<T>)
    ensures x !in s ==> r == s
    ensures x in s ==> |r| == |s| - 1
    ensures x in s ==> r == s[..IndexOf(s, x)] + s[IndexOf(s, x) + 1..]
    ensures multiset(r) == multiset(s) - multiset{x}
  {
    var k := IndexOf(s, x);
    if k < |s| then
      assert s == s[..k] + [s[k]] + s[k + 1..];
      s[..k] + s[k + 1..]
    else s
  }

  /** `slice(-n)` applied only when the list is longer than `n`: the last
      `n` elements, in order. */
  function KeepLast<T>(s: seq<T>, n: nat): (r: seq<T>)
    ensures |s| <= n ==> r == s
    ensures |s| > n ==> |r| == n
    ensures forall i :: 0 <= i < |r| ==> r[i] == s[|s| - |r| + i]
  {
    if |s| > n then s[|s| - n..] else s
  }

  /** `slice(0, n)` applied only when the list is longer than `n`: the
      first `n` elements, in order. */
  function KeepFirst<T>(s: seq<T>, n: nat): (r: seq<T>)
    ensures |s| <= n ==> r == s
    ensures |s| > n ==> |r| == n
    ensures forall i :: 0 <= i < |r| ==> r[i] == s[i]
  {
    if |s| > n then s[..n] else s
  }

  /** Appending to a bounded history and trimming it keeps the history
      bounded, ends it with the new element, and drops nothing until the
      bound is reached. */
  lemma {:induction false} AppendKeepLast<T>(h: seq<T>, x: T, n: nat)
    requires n > 0
    ensures |KeepLast(h + [x], n)| <= n
    ensures KeepLast(h + [x], n) != [] && KeepLast(h + [x], n)[|KeepLast(h + [x], n)| - 1] == x
    ensures |h| < n ==> KeepLast(h + [x], n) == h + [x]
    ensures |h| >= n ==> KeepLast(h + [x], n) == h[|h| - n + 1..] + [x]
  {
    var r := KeepLast(h + [x], n);
    if |h| >= n {
      assert r == (h + [x])[|h| + 1 - n..];
      assert (h + [x])[|h| + 1 - n..] == h[|h| - n + 1..] + [x];
    }
  }
}
