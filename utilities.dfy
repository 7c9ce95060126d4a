/** Gsw/Utilities.swift: degree conversion, whitespace trimming, inclusive
    substrings and clamping into a closed range. */
module Utilities {

  /** `Float.pi`, without single-precision rounding. */
  const Pi: real := 3.14159265358979323846

  function DegreesToRadians(angle: real): (r: real)
    ensures r * 180.0 == angle * Pi
  {
    angle * Pi / 180.0
  }

  /** The conversion is linear, so deltas convert like totals. */
  lemma DegreesToRadiansAdditive(a: real, b: real)
    ensures DegreesToRadians(a + b) == DegreesToRadians(a) + DegreesToRadians(b)
    ensures DegreesToRadians(a * b) == DegreesToRadians(a) * b
  {
  }

  /** Foundation's `whitespaces` set: tab and the Unicode space separators. */
  predicate IsWhitespace(c: char) {
    c == ' ' || c == '\t' || c == '\U{00A0}' || c == '\U{1680}'
    || ('\U{2000}' <= c <= '\U{200A}') || c == '\U{202F}' || c == '\U{205F}' || c == '\U{3000}'
  }

  /** `s` with its leading whitespace removed: a suffix of `s`. */
  function TrimLeading(s: string): (r: string)
    ensures |r| <= |s| && r == s[|s| - |r|..]
    ensures r == [] || !IsWhitespace(r[0])
    ensures forall k :: 0 <= k < |s| - |r| ==> IsWhitespace(s[k])
  {
    if s != [] && IsWhitespace(s[0]) then TrimLeading(s[1..]) else s
  }

  /** `s` with its trailing whitespace removed: a prefix of `s`. */
  function TrimTrailing(s: string): (r: string)
    ensures |r| <= |s| && r == s[..|r|]
    ensures r == [] || !IsWhitespace(r[|r| - 1])
    ensures forall k :: |r| <= k < |s| ==> IsWhitespace(s[k])
  {
    if s != [] && IsWhitespace(s[|s| - 1]) then TrimTrailing(s[..|s| - 1]) else s
  }

  /** `String.trim()`; `TrimRemovesOnlyEnds` says what it removes. */
  function Trim(s: string): (r: string)
    ensures |r| <= |s|
    ensures r == [] || (!IsWhitespace(r[0]) && !IsWhitespace(r[|r| - 1]))
  {
    TrimTrailing(TrimLeading(s))
  }

  /** A prefix of a suffix is a slice, and what follows the prefix in the
      suffix follows the slice in the whole. */
  lemma PrefixOfSuffix(s: string, l: string, r: string, start: nat)
    requires start <= |s| && l == s[start..] && |r| <= |l| && r == l[..|r|]
    requires forall k :: |r| <= k < |l| ==> IsWhitespace(l[k])
    ensures r == s[start..start + |r|]
    ensures forall k :: start + |r| <= k < |s| ==> IsWhitespace(s[k])
  {
    forall k | start + |r| <= k < |s|
      ensures IsWhitespace(s[k])
    {
      assert s[k] == l[k - start];
    }
  }

  /** Trimming keeps one contiguous run of `s` and drops only whitespace around it. */
  lemma TrimRemovesOnlyEnds(s: string) returns (start: nat)
    ensures start + |Trim(s)| <= |s|
    ensures Trim(s) == s[start..start + |Trim(s)|]
    ensures forall k :: 0 <= k < start ==> IsWhitespace(s[k])
    ensures forall k :: start + |Trim(s)| <= k < |s| ==> IsWhitespace(s[k])
  {
    var l := TrimLeading(s);
    start := |s| - |l|;
    var r := TrimTrailing(l);
    assert Trim(s) == r;
    PrefixOfSuffix(s, l, r, start);
  }

  lemma {:induction false} TrimIdempotent(s: string)
    ensures Trim(Trim(s)) == Trim(s)
  {
    var t := Trim(s);
    assert t == [] || !IsWhitespace(t[0]);
    assert TrimLeading(t) == t;
    assert TrimTrailing(t) == t;
  }

  /** A string with non-blank ends is its own trim. */
  lemma {:induction false} TrimOfTrimmed(s: string)
    requires s == [] || (!IsWhitespace(s[0]) && !IsWhitespace(s[|s| - 1]))
    ensures Trim(s) == s
  {
    assert TrimLeading(s) == s;
  }

  /** `substring(from:to:)`: characters `from` through `to` inclusive. Forming
      the end index `to+1` traps unless it lies within the string. */
  function Substring(s: string, from: int, to: int): (r: string)
    requires 0 <= from <= to + 1 <= |s|
    ensures |r| == to - from + 1
    ensures forall k :: 0 <= k < |r| ==> r[k] == s[from + k]
  {
    s[from..to + 1]
  }

  /** `ClosedRange.clamp`; the range itself cannot be formed unless lower <= upper. */
  function Clamp(lower: real, upper: real, value: real): (r: real)
    requires lower <= upper
    ensures lower <= r <= upper
    ensures lower <= value <= upper ==> r == value
    ensures value < lower ==> r == lower
    ensures value > upper ==> r == upper
  {
    if value < lower then lower else if value > upper then upper else value
  }

  lemma ClampIdempotent(lower: real, upper: real, value: real)
    requires lower <= upper
    ensures Clamp(lower, upper, Clamp(lower, upper, value)) == Clamp(lower, upper, value)
  {
  }
}
