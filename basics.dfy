/**
 * Shared vocabulary of the analyzer model: optional values, results that
 * carry the message of a Python exception, Python's notion of whitespace
 * with `str.strip()`, and the `YYYY-MM-DD HH:MM:SS` timestamps the store
 * keeps.
 */
module Basics {

  datatype Option<+T> = None | Some(value: T)

  /** The outcome of a Python call that may raise: `Err` carries the message. */
  datatype Result<+T> = Ok(value: T) | Err(msg: string)

  /** Characters for which Python's `str.isspace()` holds. */
  predicate IsSpace(c: char)
  {
    || c == ' ' || c == '\t' || c == '\n' || c == '\r' || c == '\U{000B}' || c == '\U{000C}'
    || ('\U{001C}' <= c <= '\U{001F}') || c == '\U{0085}' || c == '\U{00A0}' || c == '\U{1680}'
    || ('\U{2000}' <= c <= '\U{200A}') || c == '\U{2028}' || c == '\U{2029}' || c == '\U{202F}'
    || c == '\U{205F}' || c == '\U{3000}'
  }

  predicate AllSpace(s: string)
  {
    forall k :: 0 <= k < |s| ==> IsSpace(s[k])
  }

  /** `s.lstrip()`: the suffix of `s` that starts at its first non-space character. */
  function LStrip(s: string): (r: string)
    ensures |r| <= |s| && r == s[|s| - |r|..]
    ensures forall k :: 0 <= k < |s| - |r| ==> IsSpace(s[k])
    ensures r != [] ==> !IsSpace(r[0])
  {
    if |s| > 0 && IsSpace(s[0]) then
      var r := LStrip(s[1..]);
      assert forall k :: 1 <= k < |s| ==> s[1..][k - 1] == s[k];
      r
    else s
  }

  /** `s.rstrip()`: the prefix of `s` that ends at its last non-space character. */
  function RStrip(s: string): (r: string)
    ensures |r| <= |s| && r == s[..|r|]
    ensures forall k :: |r| <= k < |s| ==> IsSpace(s[k])
    ensures r != [] ==> !IsSpace(r[|r| - 1])
  {
    if |s| > 0 && IsSpace(s[|s| - 1]) then
      var r := RStrip(s[..|s| - 1]);
      assert forall k :: 0 <= k < |s| - 1 ==> s[..|s| - 1][k] == s[k];
      r
    else s
  }

  /** `s.strip()`. */
  function Strip(s: string): string
  {
    RStrip(LStrip(s))
  }

  /** `not s or s.strip() == ''`, the test every component uses for "no
      text": every character is whitespace (see `BlankIffStripEmpty`). */
  predicate Blank(s: string)
  {
    AllSpace(s)
  }

  lemma {:induction false} LStripEmpty(s: string)
    ensures LStrip(s) == [] <==> AllSpace(s)
  {
    if |s| > 0 && IsSpace(s[0]) {
      LStripEmpty(s[1..]);
      assert AllSpace(s) <==> AllSpace(s[1..]) by {
        assert forall k :: 0 < k < |s| ==> s[k] == s[1..][k - 1];
      }
    }
  }

  lemma {:induction false} RStripEmpty(s: string)
    ensures RStrip(s) == [] <==> AllSpace(s)
  {
    if |s| > 0 && IsSpace(s[|s| - 1]) {
      RStripEmpty(s[..|s| - 1]);
      assert AllSpace(s) <==> AllSpace(s[..|s| - 1]) by {
        assert forall k :: 0 <= k < |s| - 1 ==> s[k] == s[..|s| - 1][k];
      }
    }
  }

  /** A string is blank exactly when stripping leaves nothing. */
  lemma BlankIffStripEmpty(s: string)
    ensures Blank(s) <==> Strip(s) == ""
  {
    var l := LStrip(s);
    LStripEmpty(s);
    if l != [] {
      RStripEmpty(l);
      assert !IsSpace(l[0]);
    }
  }

  /** Stripping twice is stripping once. */
  lemma StripIdempotent(s: string)
    ensures Strip(Strip(s)) == Strip(s)
  {
    var l := LStrip(s);
    var r := RStrip(l);
    if r != [] {
      assert r[0] == l[0];
      assert !IsSpace(r[0]) && !IsSpace(r[|r| - 1]);
      assert LStrip(r) == r;
      assert RStrip(r) == r;
    } else {
      assert LStrip(r) == r;
    }
  }

  /** A `YYYY-MM-DD HH:MM:SS` timestamp as the store keeps it. */
  datatype Timestamp = Timestamp(year: int, month: int, day: int, hour: int, minute: int, second: int)

  /** `strftime('%Y-%m-%d %H:00:00', t)`: the start of the hour containing `t`. */
  function HourOf(t: Timestamp): (h: Timestamp)
    ensures h.minute == 0 && h.second == 0
    ensures h.year == t.year && h.month == t.month && h.day == t.day && h.hour == t.hour
  {
    t.(minute := 0, second := 0)
  }

  /** Chronological order, which is also the order of the formatted strings. */
  predicate Before(a: Timestamp, b: Timestamp)
  {
    || a.year < b.year
    || (a.year == b.year && a.month < b.month)
    || (a.year == b.year && a.month == b.month && a.day < b.day)
    || (a.year == b.year && a.month == b.month && a.day == b.day && a.hour < b.hour)
    || (a.year == b.year && a.month == b.month && a.day == b.day && a.hour == b.hour && a.minute < b.minute)
    || (a.year == b.year && a.month == b.month && a.day == b.day && a.hour == b.hour && a.minute == b.minute && a.second < b.second)
  }

  function Min(a: int, b: int): int
  {
    if a <= b then a else b
  }
}
