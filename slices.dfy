/**
 * Python slicing of lists and strings with possibly negative bounds.
 * `Take(s, k)` is Python's `s[:k]`, `Drop(s, k)` is `s[k:]`.
 */
module Slices {
  /** Python's normalisation of a slice bound `k` against length `n`. */
  function Bound(k: int, n: nat): (b: nat)
    ensures b <= n
    ensures 0 <= k <= n ==> b == k
    ensures k > n ==> b == n
    ensures k < 0 && -k <= n ==> b == n + k
    ensures k < 0 && -k > n ==> b == 0
  {
    if k < 0 then (if n + k < 0 then 0 else n + k)
    else if k > n then n
    else k
  }

  /** Python `s[:k]`. */
  function Take<T>(s: seq<T>, k: int): (r: seq<T>)
    ensures r == s[..Bound(k, |s|)]
  {
    s[..Bound(k, |s|)]
  }

  /** Python `s[k:]`. */
  function Drop<T>(s: seq<T>, k: int): (r: seq<T>)
    ensures r == s[Bound(k, |s|)..]
  {
    s[Bound(k, |s|)..]
  }

  /** `s[:k] + s[k:] == s` for every integer `k`, negative ones included. */
  lemma {:induction false} TakeDropSplit<T>(s: seq<T>, k: int)
    ensures Take(s, k) + Drop(s, k) == s
  {
  }

  /** Concatenation regroups freely. */
  lemma {:induction false} AppendAssoc<T>(x: seq<T>, y: seq<T>, z: seq<T>)
    ensures (x + y) + z == x + (y + z)
  {
  }

  function Min(a: int, b: int): (m: int)
    ensures m <= a && m <= b && (m == a || m == b)
  {
    if a <= b then a else b
  }

  function Max(a: int, b: int): (m: int)
    ensures m >= a && m >= b && (m == a || m == b)
  {
    if a >= b then a else b
  }

  /**
   * Python `s[-n:]` for `n > 0` is the last `min(n, |s|)` elements, and
   * Python `s[:-n]` is everything before them.
   */
  lemma {:induction false} NegativeSlices<T>(s: seq<T>, n: int)
    requires n > 0
    ensures |Drop(s, -n)| == Min(n, |s|)
    ensures Drop(s, -n) == s[|s| - Min(n, |s|)..]
    ensures Take(s, -n) == s[..|s| - Min(n, |s|)]
  {
  }

  /** Python `s[-0:]` is the whole sequence and `s[:-0]` is empty. */
  lemma {:induction false} NegativeZeroSlices<T>(s: seq<T>)
    ensures Drop(s, -0) == s && Take(s, -0) == []
  {
  }
}
