/**
 * The parts of Python's `str` that the preferences handlers rely on:
 * `strip()`, `lower()`, `split(":")`, `isdigit()`, `int()`, `partition(":")`
 * and the `02d` format of a small integer.
 */
module PyStr {

  type String = seq<char>

  /** Python's `str.isspace()`: the characters `strip()` removes when given no argument. */
  predicate IsSpace(c: char) {
    || c == ' '
    || ('\t' <= c <= '\r')
    || ('\U{1C}' <= c <= '\U{1F}')
    || c == '\U{85}' || c == '\U{A0}' || c == '\U{1680}'
    || ('\U{2000}' <= c <= '\U{200A}')
    || c == '\U{2028}' || c == '\U{2029}' || c == '\U{202F}' || c == '\U{205F}' || c == '\U{3000}'
  }

  /** Removes the longest prefix made of white space. */
  function TrimStart(s: String): (r: String)
    ensures |r| <= |s| && r == s[|s| - |r|..]
    ensures forall i :: 0 <= i < |s| - |r| ==> IsSpace(s[i])
    ensures r == [] || !IsSpace(r[0])
    decreases |s|
  {
    if s != [] && IsSpace(s[0]) then TrimStart(s[1..]) else s
  }

  /** Removes the longest suffix made of white space. */
  function TrimEnd(s: String): (r: String)
    ensures |r| <= |s| && r == s[..|r|]
    ensures forall i :: |r| <= i < |s| ==> IsSpace(s[i])
    ensures r == [] || !IsSpace(r[|r| - 1])
    decreases |s|
  {
    if s != [] && IsSpace(s[|s| - 1]) then TrimEnd(s[..|s| - 1]) else s
  }

  /** Python's `s.strip()`: the middle slice of `s` left once the white space around it is gone. */
  function Strip(s: String): (r: String)
    ensures r == [] || (!IsSpace(r[0]) && !IsSpace(r[|r| - 1]))
    ensures (s == [] || (!IsSpace(s[0]) && !IsSpace(s[|s| - 1]))) ==> r == s
    ensures exists a, b ::
      && 0 <= a <= b <= |s| && r == s[a..b]
      && (forall i :: 0 <= i < a ==> IsSpace(s[i]))
      && (forall i :: b <= i < |s| ==> IsSpace(s[i]))
  {
    var t := TrimStart(s);
    var r := TrimEnd(t);
    assert r == s[|s| - |t|..|s| - |t| + |r|];
    r
  }

  /**
   * Python's `str.lower()` on one character, for the Latin and Cyrillic capitals;
   * every other character is left as it is.
   */
  function LowerChar(c: char): (r: char)
    ensures ('0' <= r <= '9' || r == ':') <==> ('0' <= c <= '9' || c == ':')
  {
    if 'A' <= c <= 'Z' then (c as int + 32) as char
    else if '\U{410}' <= c <= '\U{42F}' then (c as int + 32) as char
    else if '\U{400}' <= c <= '\U{40F}' then (c as int + 80) as char
    else c
  }

  /** Python's `s.lower()`, character by character. */
  function Lower(s: String): (r: String)
    ensures |r| == |s|
    ensures forall i :: 0 <= i < |s| ==> r[i] == LowerChar(s[i])
  {
    if s == [] then [] else [LowerChar(s[0])] + Lower(s[1..])
  }

  /** The inverse of `Split`: the parts glued back together with `sep` between them. */
  function Join(parts: seq<String>, sep: char): String
    requires |parts| >= 1
  {
    if |parts| == 1 then parts[0] else parts[0] + [sep] + Join(parts[1..], sep)
  }

  /** Python's `s.split(sep)` for a one-character separator: never empty, parts free of `sep`. */
  function Split(s: String, sep: char): (parts: seq<String>)
    ensures |parts| >= 1
    ensures forall i :: 0 <= i < |parts| ==> sep !in parts[i]
    ensures Join(parts, sep) == s
  {
    if s == [] then [[]]
    else
      var rest := Split(s[1..], sep);
      if s[0] == sep then
        assert ([[]] + rest)[1..] == rest;
        [[]] + rest
      else
        var parts := [[s[0]] + rest[0]] + rest[1..];
        assert parts[1..] == rest[1..];
        assert s == [s[0]] + s[1..];
        parts
  }

  lemma {:induction false} SplitWithoutSep(s: String, sep: char)
    requires sep !in s
    ensures Split(s, sep) == [s]
    decreases |s|
  {
    if s != [] {
      assert sep !in s[1..];
      SplitWithoutSep(s[1..], sep);
    }
  }

  /** A string with exactly one separator splits into the two sides of it. */
  lemma {:induction false} SplitAtOnlySep(h: String, m: String, sep: char)
    requires sep !in h && sep !in m
    ensures Split(h + [sep] + m, sep) == [h, m]
    decreases |h|
  {
    var s := h + [sep] + m;
    if h == [] {
      assert s[1..] == m;
      SplitWithoutSep(m, sep);
    } else {
      assert s[1..] == h[1..] + [sep] + m;
      assert sep !in h[1..];
      SplitAtOnlySep(h[1..], m, sep);
      assert [h[0]] + h[1..] == h;
    }
  }

  /** Two parts join back with a single separator between them. */
  lemma JoinTwo(parts: seq<String>, sep: char)
    requires |parts| == 2
    ensures Join(parts, sep) == parts[0] + [sep] + parts[1]
  {
    assert parts[1..] == [parts[1]];
  }

  predicate IsDigit(c: char) {
    '0' <= c <= '9'
  }

  /** Python's `s.isdigit()` restricted to the ASCII digits: non-empty and digits only. */
  predicate IsDecimal(s: String)
    ensures IsDecimal(s) ==> ':' !in s && '-' !in s && '+' !in s
  {
    |s| > 0 && forall i :: 0 <= i < |s| ==> IsDigit(s[i])
  }

  function Pow10(k: nat): (p: nat)
    ensures p >= 1
  {
    if k == 0 then 1 else 10 * Pow10(k - 1)
  }

  /** Python's `int(s)` for a string of ASCII digits (leading zeros allowed): below `10` to the length. */
  function DigitsValue(s: String): (n: nat)
    requires forall i :: 0 <= i < |s| ==> IsDigit(s[i])
    ensures n < Pow10(|s|)
    decreases |s|
  {
    if s == [] then 0
    else
      assert IsDigit(s[|s| - 1]);
      var d := s[|s| - 1] as int - '0' as int;
      var v := DigitsValue(s[..|s| - 1]);
      assert v * 10 + d < Pow10(|s|) by {
        assert v + 1 <= Pow10(|s| - 1);
        assert (v + 1) * 10 <= Pow10(|s| - 1) * 10;
      }
      v * 10 + d
  }

  /** Leading zeros do not change the value, so `int("009") == 9`. */
  lemma {:induction false} LeadingZeroValue(s: String)
    requires forall i :: 0 <= i < |s| ==> IsDigit(s[i])
    ensures DigitsValue(['0'] + s) == DigitsValue(s)
    decreases |s|
  {
    var z := ['0'] + s;
    if s == [] {
      assert z[..0] == [];
    } else {
      assert z[..|z| - 1] == ['0'] + s[..|s| - 1];
      LeadingZeroValue(s[..|s| - 1]);
    }
  }

  function DigitChar(d: nat): (c: char)
    requires d < 10
    ensures IsDigit(c) && c as int - '0' as int == d
  {
    ('0' as int + d) as char
  }

  /** Python's `f"{n:02d}"` for `0 <= n < 100`: exactly two digits, zero-padded, reading back as `n`. */
  function Pad2(n: nat): (r: String)
    requires n < 100
    ensures |r| == 2 && IsDecimal(r) && DigitsValue(r) == n
  {
    var r := [DigitChar(n / 10), DigitChar(n % 10)];
    assert r[..1] == [r[0]] && r[..1][..0] == [];
    assert DigitsValue(r[..1]) == n / 10;
    r
  }

  /** Python's `s.partition(sep)[2]`: what follows the first `sep`, or `""` when there is none. */
  function AfterFirst(s: String, sep: char): (r: String)
    ensures sep !in s ==> r == []
    ensures |r| <= |s|
  {
    if s == [] then []
    else if s[0] == sep then s[1..]
    else AfterFirst(s[1..], sep)
  }

  /** `partition(sep)[2]` is what follows the first `sep`: nothing before it is `sep`. */
  lemma {:induction false} AfterFirstSpec(s: String, sep: char)
    requires sep in s
    ensures |AfterFirst(s, sep)| < |s|
    ensures s == s[..|s| - |AfterFirst(s, sep)| - 1] + [sep] + AfterFirst(s, sep)
    ensures sep !in s[..|s| - |AfterFirst(s, sep)| - 1]
    decreases |s|
  {
    if s[0] != sep {
      assert sep in s[1..] by {
        var k :| 0 <= k < |s| && s[k] == sep;
        assert s[1..][k - 1] == sep;
      }
      AfterFirstSpec(s[1..], sep);
      var r := AfterFirst(s, sep);
      var p := s[1..][..|s| - 1 - |r| - 1];
      assert s[..|s| - |r| - 1] == [s[0]] + p;
    }
  }

  lemma {:induction false} AfterFirstSep(p: String, sep: char, rest: String)
    requires sep !in p
    ensures AfterFirst(p + [sep] + rest, sep) == rest
    decreases |p|
  {
    var s := p + [sep] + rest;
    if p == [] {
      assert s[1..] == rest;
    } else {
      assert s[1..] == p[1..] + [sep] + rest;
      assert sep !in p[1..];
      AfterFirstSep(p[1..], sep, rest);
    }
  }
}
