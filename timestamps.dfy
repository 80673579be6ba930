/**
 * Naive UTC timestamps as Python's `datetime` represents them, with the
 * ISO 8601 text form `isoformat()` writes and `fromisoformat()` reads
 * back, and the microsecond count that timestamp subtraction rests on.
 */
module Timestamps {
  import opened Wrappers
  import Text

  datatype DateTime = DateTime(
    year: int, month: int, day: int,
    hour: int, minute: int, second: int, microsecond: int)

  predicate IsLeap(y: int) {
    y % 4 == 0 && (y % 100 != 0 || y % 400 == 0)
  }

  function DaysInMonth(y: int, m: int): (d: int)
    requires 1 <= m <= 12
    ensures 28 <= d <= 31
  {
    if m == 2 then (if IsLeap(y) then 29 else 28)
    else if m == 4 || m == 6 || m == 9 || m == 11 then 30
    else 31
  }

  /** The ranges Python's `datetime` constructor enforces. */
  predicate Valid(t: DateTime) {
    1 <= t.year <= 9999 && 1 <= t.month <= 12 && 1 <= t.day <= DaysInMonth(t.year, t.month)
    && 0 <= t.hour < 24 && 0 <= t.minute < 60 && 0 <= t.second < 60
    && 0 <= t.microsecond < 1000000
  }

  function Pow10(w: nat): (p: nat)
    ensures p >= 1
  {
    if w == 0 then 1 else 10 * Pow10(w - 1)
  }

  /** `n` written with exactly `w` decimal digits, zero-padded. */
  function Pad(n: nat, w: nat): (s: string)
    requires n < Pow10(w)
    ensures |s| == w
    ensures forall i :: 0 <= i < |s| ==> '0' <= s[i] <= '9'
  {
    if w == 0 then [] else Pad(n / 10, w - 1) + [Text.DigitChar(n % 10)]
  }

  /** The value of a string of decimal digits, or `None` if a character is not a digit. */
  function Digits(s: string): (r: Option<nat>)
    ensures r.Some? ==> r.value < Pow10(|s|)
  {
    if s == [] then Some(0)
    else
      var c := s[|s| - 1];
      match Digits(s[..|s| - 1])
      case None => None
      case Some(v) =>
        if '0' <= c <= '9' then Some(10 * v + (c as int - '0' as int)) else None
  }

  lemma {:induction false} DigitsPad(n: nat, w: nat)
    requires n < Pow10(w)
    ensures Digits(Pad(n, w)) == Some(n)
  {
    if w > 0 {
      var s := Pad(n, w);
      assert s[..|s| - 1] == Pad(n / 10, w - 1);
      DigitsPad(n / 10, w - 1);
      var d := n % 10;
      assert s[|s| - 1] == Text.DigitChar(d);
      assert Text.DigitChar(d) as int - '0' as int == d;
    }
  }

  /** The `YYYY-MM-DD` part of `isoformat()`. */
  function IsoDate(t: DateTime): (s: string)
    requires Valid(t)
    ensures |s| == 10
  {
    Pad(t.year, 4) + "-" + Pad(t.month, 2) + "-" + Pad(t.day, 2)
  }

  /** The `HH:MM:SS` part of `isoformat()`. */
  function IsoTime(t: DateTime): (s: string)
    requires Valid(t)
    ensures |s| == 8
  {
    Pad(t.hour, 2) + ":" + Pad(t.minute, 2) + ":" + Pad(t.second, 2)
  }

  /** The `YYYY-MM-DDTHH:MM:SS` part of `isoformat()`. */
  function IsoBase(t: DateTime): (s: string)
    requires Valid(t)
    ensures |s| == 19
  {
    IsoDate(t) + "T" + IsoTime(t)
  }

  /** Python `dt.isoformat()` for a naive datetime: microseconds are written only when non-zero. */
  function Iso(t: DateTime): (s: string)
    requires Valid(t)
    ensures |s| == 19 || |s| == 26
  {
    IsoBase(t) + (if t.microsecond != 0 then "." + Pad(t.microsecond, 6) else "")
  }

  /** Reads the `w` digits starting at `i`. */
  function Field(s: string, i: nat, w: nat): Option<nat>
    requires i + w <= |s|
  {
    Digits(s[i..i + w])
  }

  /**
   * Python `datetime.fromisoformat(s)` restricted to the two shapes
   * `isoformat()` writes: `YYYY-MM-DDTHH:MM:SS` and the same followed by
   * `.ffffff`.
   */
  function ParseIso(s: string): (r: Option<DateTime>)
    ensures r.Some? ==> Valid(r.value)
  {
    if !(|s| == 19 || (|s| == 26 && s[19] == '.')) then None
    else if s[4] != '-' || s[7] != '-' || s[10] != 'T' || s[13] != ':' || s[16] != ':' then None
    else
      var us := if |s| == 26 then Field(s, 20, 6) else Some(0);
      var y, mo, d := Field(s, 0, 4), Field(s, 5, 2), Field(s, 8, 2);
      var h, mi, se := Field(s, 11, 2), Field(s, 14, 2), Field(s, 17, 2);
      if y.None? || mo.None? || d.None? || h.None? || mi.None? || se.None? || us.None? then None
      else
        var t := DateTime(y.value, mo.value, d.value, h.value, mi.value, se.value, us.value);
        if Valid(t) then Some(t) else None
  }

  /** What `ParseIso` needs to see in `s` to read back `t`. */
  lemma {:induction false} ParseIsoFields(s: string, t: DateTime)
    requires Valid(t)
    requires |s| == 19 || (|s| == 26 && s[19] == '.')
    requires s[4] == '-' && s[7] == '-' && s[10] == 'T' && s[13] == ':' && s[16] == ':'
    requires Field(s, 0, 4) == Some(t.year) && Field(s, 5, 2) == Some(t.month)
    requires Field(s, 8, 2) == Some(t.day) && Field(s, 11, 2) == Some(t.hour)
    requires Field(s, 14, 2) == Some(t.minute) && Field(s, 17, 2) == Some(t.second)
    requires |s| == 26 ==> Field(s, 20, 6) == Some(t.microsecond)
    requires |s| == 19 ==> t.microsecond == 0
    ensures ParseIso(s) == Some(t)
  {
  }

  /** Three fields of width `w` joined by a one-character separator: where each one lies. */
  lemma {:induction false} Triple(a: string, x: char, b: string, y: char, c: string)
    ensures var s := a + [x] + b + [y] + c;
      && s[..|a|] == a && s[|a|] == x && s[|a| + 1..|a| + 1 + |b|] == b
      && s[|a| + 1 + |b|] == y && s[|a| + |b| + 2..] == c
  {
    var s := a + [x] + b + [y] + c;
    assert s[|a| + 1..|a| + 1 + |b|] == b by {
      forall k | 0 <= k < |b|
        ensures s[|a| + 1 + k] == b[k]
      {
      }
    }
    assert s[|a| + |b| + 2..] == c;
  }

  /** `a[i..j]` read inside `a + b`, and `b[i..j]` read inside `a + b` after `a`. */
  lemma {:induction false} SliceAppend(a: string, b: string, i: nat, j: nat)
    ensures j <= |a| && i <= j ==> (a + b)[i..j] == a[i..j]
    ensures i <= j <= |b| ==> (a + b)[|a| + i..|a| + j] == b[i..j]
  {
  }

  lemma {:induction false} BaseLayout(t: DateTime)
    requires Valid(t)
    ensures var s := IsoBase(t);
      s[0..4] == Pad(t.year, 4) && s[5..7] == Pad(t.month, 2) && s[8..10] == Pad(t.day, 2)
      && s[11..13] == Pad(t.hour, 2) && s[14..16] == Pad(t.minute, 2) && s[17..19] == Pad(t.second, 2)
      && s[4] == '-' && s[7] == '-' && s[10] == 'T' && s[13] == ':' && s[16] == ':'
  {
    var d, tm := IsoDate(t), IsoTime(t);
    Triple(Pad(t.year, 4), '-', Pad(t.month, 2), '-', Pad(t.day, 2));
    Triple(Pad(t.hour, 2), ':', Pad(t.minute, 2), ':', Pad(t.second, 2));
    assert d[0..4] == d[..4];
    assert d[8..10] == d[8..];
    assert tm[0..2] == tm[..2];
    assert tm[6..8] == tm[6..];
    var s := IsoBase(t);
    assert s == d + ("T" + tm);
    SliceAppend(d, "T" + tm, 0, 4);
    SliceAppend(d, "T" + tm, 5, 7);
    SliceAppend(d, "T" + tm, 8, 10);
    SliceAppend(d, "T" + tm, 0, 1);
    SliceAppend("T", tm, 0, 2);
    SliceAppend("T", tm, 3, 5);
    SliceAppend("T", tm, 6, 8);
    SliceAppend(d, "T" + tm, 1, 3);
    SliceAppend(d, "T" + tm, 4, 6);
    SliceAppend(d, "T" + tm, 7, 9);
  }

  lemma {:induction false} IsoLayout(t: DateTime)
    requires Valid(t)
    ensures Iso(t)[..19] == IsoBase(t)
    ensures t.microsecond == 0 ==> |Iso(t)| == 19
    ensures t.microsecond != 0 ==> |Iso(t)| == 26 && Iso(t)[19] == '.' && Iso(t)[20..26] == Pad(t.microsecond, 6)
  {
  }

  lemma {:induction false} SliceOfPrefix(s: string, b: string, i: nat, j: nat)
    requires |b| <= |s| && s[..|b|] == b && i <= j <= |b|
    ensures s[i..j] == b[i..j]
  {
    assert forall k :: i <= k < j ==> s[k] == s[..|b|][k];
  }

  lemma {:induction false} IsoDateFields(t: DateTime)
    requires Valid(t)
    ensures Field(Iso(t), 0, 4) == Some(t.year)
    ensures Field(Iso(t), 5, 2) == Some(t.month)
    ensures Field(Iso(t), 8, 2) == Some(t.day)
  {
    IsoLayout(t);
    BaseLayout(t);
    SliceOfPrefix(Iso(t), IsoBase(t), 0, 4);
    SliceOfPrefix(Iso(t), IsoBase(t), 5, 7);
    SliceOfPrefix(Iso(t), IsoBase(t), 8, 10);
    DigitsPad(t.year, 4);
    DigitsPad(t.month, 2);
    DigitsPad(t.day, 2);
  }

  lemma {:induction false} IsoTimeFields(t: DateTime)
    requires Valid(t)
    ensures Field(Iso(t), 11, 2) == Some(t.hour)
    ensures Field(Iso(t), 14, 2) == Some(t.minute)
    ensures Field(Iso(t), 17, 2) == Some(t.second)
    ensures |Iso(t)| == 26 ==> Field(Iso(t), 20, 6) == Some(t.microsecond)
  {
    IsoLayout(t);
    BaseLayout(t);
    SliceOfPrefix(Iso(t), IsoBase(t), 11, 13);
    SliceOfPrefix(Iso(t), IsoBase(t), 14, 16);
    SliceOfPrefix(Iso(t), IsoBase(t), 17, 19);
    DigitsPad(t.hour, 2);
    DigitsPad(t.minute, 2);
    DigitsPad(t.second, 2);
    if t.microsecond != 0 {
      DigitsPad(t.microsecond, 6);
    }
  }

  /** `fromisoformat(dt.isoformat()) == dt`. */
  lemma {:induction false} IsoRoundTrip(t: DateTime)
    requires Valid(t)
    ensures ParseIso(Iso(t)) == Some(t)
  {
    IsoLayout(t);
    BaseLayout(t);
    var s := Iso(t);
    assert s[4] == IsoBase(t)[4] && s[7] == IsoBase(t)[7] && s[10] == IsoBase(t)[10];
    assert s[13] == IsoBase(t)[13] && s[16] == IsoBase(t)[16];
    IsoDateFields(t);
    IsoTimeFields(t);
    ParseIsoFields(Iso(t), t);
  }

  /** Days in the years before `y` (Python's `_days_before_year`). */
  function DaysBeforeYear(y: int): int {
    var p := y - 1;
    p * 365 + p / 4 - p / 100 + p / 400
  }

  /** Days in the months of year `y` before month `m` (Python's `_days_before_month`). */
  function DaysBeforeMonth(y: int, m: int): int
    requires 1 <= m <= 12
  {
    [0, 31, 59, 90, 120, 151, 181, 212, 243, 273, 304, 334][m - 1]
    + (if m > 2 && IsLeap(y) then 1 else 0)
  }

  /** Python `dt.toordinal()`: 1 for 0001-01-01. */
  function Ordinal(t: DateTime): int
    requires Valid(t)
  {
    DaysBeforeYear(t.year) + DaysBeforeMonth(t.year, t.month) + t.day
  }

  /** Microseconds since 0001-01-01 00:00, which `a - b` subtracts. */
  function Micros(t: DateTime): int
    requires Valid(t)
  {
    (((Ordinal(t) * 24 + t.hour) * 60 + t.minute) * 60 + t.second) * 1000000 + t.microsecond
  }

  /** Python `(a - b).total_seconds()`. */
  function SecondsBetween(a: DateTime, b: DateTime): real
    requires Valid(a) && Valid(b)
  {
    (Micros(a) - Micros(b)) as real / 1000000.0
  }
}
