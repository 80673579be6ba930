/**
 * The Python `str` operations the proxy relies on, over `seq<char>`.
 * Case mapping covers ASCII letters only.
 */
module Text {
  /** Characters Python's `str.strip()` and `str.isspace()` treat as white space. */
  predicate IsSpace(c: char) {
    c == ' ' || ('\t' <= c <= '\r') || ('\U{1c}' <= c <= '\U{1f}')
    || c == '\U{85}' || c == '\U{a0}' || c == '\U{1680}'
    || ('\U{2000}' <= c <= '\U{200a}') || c == '\U{2028}' || c == '\U{2029}'
    || c == '\U{202f}' || c == '\U{205f}' || c == '\U{3000}'
  }

  /** `s.strip()` is non-empty, i.e. truthy, exactly when `s` has a non-space character. */
  predicate HasNonSpace(s: string) {
    exists i :: 0 <= i < |s| && !IsSpace(s[i])
  }

  function LowerChar(c: char): (r: char)
    ensures 'A' <= c <= 'Z' ==> r != c && 'a' <= r <= 'z'
    ensures !('A' <= c <= 'Z') ==> r == c
  {
    if 'A' <= c <= 'Z' then (c as int + 32) as char else c
  }

  function UpperChar(c: char): (r: char)
    ensures 'a' <= c <= 'z' ==> r != c && 'A' <= r <= 'Z'
    ensures !('a' <= c <= 'z') ==> r == c
  {
    if 'a' <= c <= 'z' then (c as int - 32) as char else c
  }

  /** `s.lower()`: keeps the length and maps each character. */
  function Lower(s: string): (r: string)
    ensures |r| == |s|
    ensures forall i :: 0 <= i < |s| ==> r[i] == LowerChar(s[i])
  {
    seq(|s|, i requires 0 <= i < |s| => LowerChar(s[i]))
  }

  /** `s.upper()`: keeps the length and maps each character. */
  function Upper(s: string): (r: string)
    ensures |r| == |s|
    ensures forall i :: 0 <= i < |s| ==> r[i] == UpperChar(s[i])
  {
    seq(|s|, i requires 0 <= i < |s| => UpperChar(s[i]))
  }

  predicate StartsWith(s: string, prefix: string) {
    |prefix| <= |s| && s[..|prefix|] == prefix
  }

  /** `needle` occurs in `hay` at index `j`. */
  predicate MatchAt(hay: string, needle: string, j: int) {
    0 <= j && j + |needle| <= |hay| && hay[j..j + |needle|] == needle
  }

  /** `hay` agrees with `needle` from offset `k` of an occurrence at `j`, character by character. */
  predicate AgreeFrom(hay: string, needle: string, j: nat, k: nat)
    requires j + |needle| <= |hay| && k <= |needle|
    decreases |needle| - k
  {
    k == |needle| || (hay[j + k] == needle[k] && AgreeFrom(hay, needle, j, k + 1))
  }

  lemma {:induction false} AgreeFromSlices(hay: string, needle: string, j: nat, k: nat)
    requires j + |needle| <= |hay| && k <= |needle|
    ensures AgreeFrom(hay, needle, j, k) <==> hay[j + k..j + |needle|] == needle[k..]
    decreases |needle| - k
  {
    if k < |needle| {
      AgreeFromSlices(hay, needle, j, k + 1);
      assert hay[j + k..j + |needle|] == [hay[j + k]] + hay[j + k + 1..j + |needle|];
      assert needle[k..] == [needle[k]] + needle[k + 1..];
    }
  }

  /** The character-by-character check is the occurrence test. */
  lemma {:induction false} AgreeMatch(hay: string, needle: string, j: nat)
    requires j + |needle| <= |hay|
    ensures AgreeFrom(hay, needle, j, 0) <==> MatchAt(hay, needle, j)
  {
    AgreeFromSlices(hay, needle, j, 0);
    assert needle[0..] == needle;
  }

  /**
   * Python `hay.find(needle, start)`: the least index `>= start` where
   * `needle` occurs, or -1. An empty needle is found at `start` itself
   * as long as `start <= |hay|`.
   */
  function Find(hay: string, needle: string, start: nat): (r: int)
    ensures r == -1 || (start <= r && r + |needle| <= |hay|)
    decreases |hay| - start
  {
    if start + |needle| > |hay| then -1
    else if AgreeFrom(hay, needle, start, 0) then start
    else Find(hay, needle, start + 1)
  }

  /** What `find` reports is an occurrence. */
  lemma {:induction false} FindHit(hay: string, needle: string, start: nat)
    ensures Find(hay, needle, start) != -1 ==> MatchAt(hay, needle, Find(hay, needle, start))
    decreases |hay| - start
  {
    if start + |needle| <= |hay| {
      AgreeMatch(hay, needle, start);
      if !AgreeFrom(hay, needle, start, 0) {
        FindHit(hay, needle, start + 1);
      }
    }
  }

  /** `find` reports the least occurrence at or after `start`, and -1 only when there is none. */
  lemma {:induction false} FindLeast(hay: string, needle: string, start: nat)
    ensures Find(hay, needle, start) != -1 ==>
              forall j :: start <= j < Find(hay, needle, start) ==> !MatchAt(hay, needle, j)
    ensures Find(hay, needle, start) == -1 ==> forall j :: start <= j ==> !MatchAt(hay, needle, j)
    decreases |hay| - start
  {
    if start + |needle| <= |hay| {
      AgreeMatch(hay, needle, start);
      if !AgreeFrom(hay, needle, start, 0) {
        FindLeast(hay, needle, start + 1);
      }
    }
  }

  /** Number of occurrences of `c` in `s`. */
  function Count(s: string, c: char): (n: nat)
    ensures n <= |s|
    ensures n == 0 <==> c !in s
  {
    if s == [] then 0 else Count(s[..|s| - 1], c) + (if s[|s| - 1] == c then 1 else 0)
  }

  lemma {:induction false} CountAppend(a: string, b: string, c: char)
    ensures Count(a + b, c) == Count(a, c) + Count(b, c)
    decreases |b|
  {
    if b == [] {
      assert a + b == a;
    } else {
      assert (a + b)[..|a + b| - 1] == a + b[..|b| - 1];
      CountAppend(a, b[..|b| - 1], c);
    }
  }

  /** Index of the first `c` in `s`. */
  function FirstIndex(s: string, c: char): (i: nat)
    requires c in s
    ensures i < |s| && s[i] == c && c !in s[..i]
  {
    if s[0] == c then 0 else 1 + FirstIndex(s[1..], c)
  }

  /** Python `sep.join(parts)`. */
  function Join(sep: string, parts: seq<string>): (r: string)
    ensures parts == [] ==> r == []
    ensures |parts| == 1 ==> r == parts[0]
  {
    if parts == [] then []
    else if |parts| == 1 then parts[0]
    else parts[0] + sep + Join(sep, parts[1..])
  }

  /** Python `s.split(c)` for a one-character separator. */
  function Split(s: string, c: char): (parts: seq<string>)
    ensures |parts| >= 1
    decreases |s|
  {
    if c !in s then [s]
    else
      var i := FirstIndex(s, c);
      [s[..i]] + Split(s[i + 1..], c)
  }

  /** One step of `Split`: the part before the first separator, then the split of the rest. */
  lemma {:induction false} SplitUnfold(s: string, c: char, first: string, rest: string)
    requires c in s && first == s[..FirstIndex(s, c)] && rest == s[FirstIndex(s, c) + 1..]
    ensures s == first + [c] + rest
    ensures Split(s, c) == [first] + Split(rest, c)
  {
    assert s == s[..FirstIndex(s, c)] + [c] + s[FirstIndex(s, c) + 1..];
  }

  /** No part of `s.split(c)` contains `c`. */
  lemma {:induction false} SplitNoSeparator(s: string, c: char)
    ensures forall k :: 0 <= k < |Split(s, c)| ==> c !in Split(s, c)[k]
    decreases |s|
  {
    if c in s {
      var i := FirstIndex(s, c);
      var first, rest := s[..i], s[i + 1..];
      SplitUnfold(s, c, first, rest);
      SplitNoSeparator(rest, c);
      var parts := Split(s, c);
      forall k | 0 <= k < |parts|
        ensures c !in parts[k]
      {
        if k > 0 {
          assert parts[k] == Split(rest, c)[k - 1];
        }
      }
    }
  }

  /** `c.join(s.split(c)) == s`. */
  lemma {:induction false} JoinSplit(s: string, c: char)
    ensures Join([c], Split(s, c)) == s
    decreases |s|
  {
    if c in s {
      var i := FirstIndex(s, c);
      var first, rest := s[..i], s[i + 1..];
      SplitUnfold(s, c, first, rest);
      JoinSplit(rest, c);
      JoinCons([c], first, Split(rest, c));
    }
  }

  /** `len(s.split(c)) == s.count(c) + 1`. */
  lemma {:induction false} SplitLength(s: string, c: char)
    ensures |Split(s, c)| == Count(s, c) + 1
    decreases |s|
  {
    if c in s {
      var i := FirstIndex(s, c);
      var first, rest := s[..i], s[i + 1..];
      SplitUnfold(s, c, first, rest);
      SplitLength(rest, c);
      CountPastFirst(s, c);
    }
  }

  /** Joining a first part onto a non-empty list puts the separator between them. */
  lemma {:induction false} JoinCons(sep: string, first: string, tail: seq<string>)
    requires tail != []
    ensures Join(sep, [first] + tail) == first + sep + Join(sep, tail)
  {
    assert ([first] + tail)[1..] == tail;
  }

  /** Past the first `c` there is one `c` fewer. */
  lemma {:induction false} CountPastFirst(s: string, c: char)
    requires c in s
    ensures Count(s, c) == Count(s[FirstIndex(s, c) + 1..], c) + 1
  {
    var i := FirstIndex(s, c);
    assert s == s[..i] + [c] + s[i + 1..];
    CountAppend(s[..i] + [c], s[i + 1..], c);
    CountAppend(s[..i], [c], c);
  }

  /** Appending one more part adds the separator and the part. */
  lemma {:induction false} JoinSnoc(sep: string, parts: seq<string>, last: string)
    requires parts != []
    ensures Join(sep, parts + [last]) == Join(sep, parts) + sep + last
    decreases |parts|
  {
    if |parts| > 1 {
      assert (parts + [last])[1..] == parts[1..] + [last];
      JoinSnoc(sep, parts[1..], last);
    } else {
      assert (parts + [last])[1..] == [last];
    }
  }

  /** Splitting a join of separator-free parts gives the parts back. */
  lemma {:induction false} SplitJoin(parts: seq<string>, c: char)
    requires parts != []
    requires forall k :: 0 <= k < |parts| ==> c !in parts[k]
    ensures Split(Join([c], parts), c) == parts
    decreases |parts|
  {
    if |parts| > 1 {
      var p, rest := parts[0], Join([c], parts[1..]);
      var s := p + [c] + rest;
      assert Join([c], parts) == s;
      assert s[|p|] == c;
      assert s[..|p|] == p;
      var i := FirstIndex(s, c);
      assert i == |p|;
      assert s[..i] == p;
      assert s[i + 1..] == rest;
      SplitJoin(parts[1..], c);
    }
  }

  /**
   * Python `s.split(c, maxsplit)`: the first `maxsplit` parts of the full
   * split, then the remainder whole (separators kept) as the last part.
   */
  function SplitMax(s: string, c: char, maxsplit: nat): (parts: seq<string>)
    ensures 1 <= |parts| <= maxsplit + 1
  {
    var all := Split(s, c);
    if |all| <= maxsplit + 1 then all
    else all[..maxsplit] + [Join([c], all[maxsplit..])]
  }

  /** Joining the first `m` parts and the joined remainder is joining them all. */
  lemma {:induction false} JoinRegroup(sep: string, parts: seq<string>, m: nat)
    requires 0 < m < |parts|
    ensures Join(sep, parts[..m] + [Join(sep, parts[m..])]) == Join(sep, parts)
    decreases m
  {
    var regrouped := parts[..m] + [Join(sep, parts[m..])];
    if m == 1 {
      assert regrouped[1..] == [Join(sep, parts[1..])];
    } else {
      var tail := parts[1..];
      assert regrouped[1..] == tail[..m - 1] + [Join(sep, tail[m - 1..])];
      JoinRegroup(sep, tail, m - 1);
    }
  }

  /** `c.join(s.split(c, m)) == s`. */
  lemma {:induction false} JoinSplitMax(s: string, c: char, maxsplit: nat)
    ensures Join([c], SplitMax(s, c, maxsplit)) == s
  {
    JoinSplit(s, c);
    var all := Split(s, c);
    if maxsplit + 1 < |all| {
      if maxsplit == 0 {
        assert all[..0] + [Join([c], all[0..])] == [Join([c], all)];
      } else {
        JoinRegroup([c], all, maxsplit);
      }
    }
  }

  /** `s.split(c, m)` yields one part more than the splits it performs, `min(count, m)`. */
  lemma {:induction false} SplitMaxLength(s: string, c: char, maxsplit: nat)
    ensures |SplitMax(s, c, maxsplit)| == (if Count(s, c) < maxsplit then Count(s, c) else maxsplit) + 1
  {
    SplitLength(s, c);
  }

  /** Python `s.rstrip(c)`: drops every trailing `c`. */
  function RStrip(s: string, c: char): (r: string)
    ensures |r| <= |s| && r == s[..|r|]
    ensures r == [] || r[|r| - 1] != c
    ensures forall i :: |r| <= i < |s| ==> s[i] == c
  {
    if s != [] && s[|s| - 1] == c then RStrip(s[..|s| - 1], c) else s
  }

  function DigitChar(d: nat): (c: char)
    requires d < 10
    ensures '0' <= c <= '9'
  {
    ['0', '1', '2', '3', '4', '5', '6', '7', '8', '9'][d]
  }

  /** Python `str(n)` for a non-negative integer. */
  function NatToString(n: nat): (s: string)
    ensures |s| >= 1
    ensures forall i :: 0 <= i < |s| ==> '0' <= s[i] <= '9'
    ensures (s[0] == '0') == (n == 0)
  {
    if n < 10 then [DigitChar(n)] else NatToString(n / 10) + [DigitChar(n % 10)]
  }

  /** Python `str(i)` for any integer: a minus sign before the digits of a negative one. */
  function IntToString(i: int): string {
    if i < 0 then "-" + NatToString(-i) else NatToString(i)
  }

  /** A content preview: the first `n` characters, and `...` when something was cut off. */
  function Preview(s: string, n: nat): (r: string)
    ensures |s| <= n ==> r == s
    ensures |s| > n ==> |r| == n + 3 && r[..n] == s[..n] && r[n..] == "..."
  {
    if |s| > n then s[..n] + "..." else s
  }
}
