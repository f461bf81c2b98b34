/**
 * `_parse_time` as written tests the segments with `str.isdigit()`, which
 * also holds for digit characters that are not decimal digits (superscripts
 * such as `²`, subscripts such as `₂`, circled digits such as `①`); `int()`
 * raises `ValueError` on those, so such a reply escapes `_parse_time` as an
 * exception instead of `None`.
 */
module TimeParserFinding {
  import opened Wrappers
  import opened PyStr
  import opened TimeParser

  /**
   * Digits that are not decimal digits: the superscripts, the subscripts and
   * the circled digits one to nine. `isdigit()` holds for them, `int()`
   * rejects them.
   */
  predicate IsNonDecimalDigit(c: char) {
    || c == '\U{B9}' || c == '\U{B2}' || c == '\U{B3}' || c == '\U{2070}' || ('\U{2074}' <= c <= '\U{2079}')
    || ('\U{2080}' <= c <= '\U{2089}')
    || ('\U{2460}' <= c <= '\U{2468}')
  }

  /** `str.isdigit()` on the ASCII digits and the non-decimal digits above. */
  predicate PyIsDigits(s: String) {
    |s| > 0 && forall i :: 0 <= i < |s| ==> IsDigit(s[i]) || IsNonDecimalDigit(s[i])
  }

  /** A non-decimal digit in either side of the colon is a non-decimal digit of the whole reply. */
  lemma NonDecimalWitness(raw: String, h: String, m: String)
    requires raw == h + [':'] + m
    requires PyIsDigits(h) && PyIsDigits(m) && !(IsDecimal(h) && IsDecimal(m))
    ensures exists i :: 0 <= i < |raw| && IsNonDecimalDigit(raw[i])
  {
    if !IsDecimal(h) {
      var j :| 0 <= j < |h| && !IsDigit(h[j]);
      assert raw[j] == h[j];
    } else {
      var j :| 0 <= j < |m| && !IsDigit(m[j]);
      assert raw[|h| + 1 + j] == m[j];
    }
  }

  /** What a call of `_parse_time` as written does: return a value, or raise `ValueError` from `int()`. */
  datatype Outcome = Returned(result: Option<String>) | RaisedValueError

  /** `_parse_time` as written, with `isdigit()` wider than what `int()` accepts. */
  function ParseTimeAsWritten(raw: String): (r: Outcome)
    ensures r.RaisedValueError? ==> exists i :: 0 <= i < |raw| && IsNonDecimalDigit(raw[i])
  {
    var parts := Split(raw, ':');
    if |parts| != 2 || !(PyIsDigits(parts[0]) && PyIsDigits(parts[1])) then Returned(None)
    else if !(IsDecimal(parts[0]) && IsDecimal(parts[1])) then
      JoinTwo(parts, ':');
      NonDecimalWitness(raw, parts[0], parts[1]);
      RaisedValueError
    else
      var hour, minute := DigitsValue(parts[0]), DigitsValue(parts[1]);
      if !(0 <= hour <= 23 && 0 <= minute <= 59) then Returned(None)
      else Returned(Some(Pad2(hour) + ":" + Pad2(minute)))
  }

  /** The reply `²:00` makes `_parse_time` as written raise. */
  lemma SuperscriptReplyRaises()
    ensures ParseTimeAsWritten("²:00") == RaisedValueError
  {
    SplitAtOnlySep("²", "00", ':');
    assert "²" + ":" + "00" == "²:00";
  }

  /**
   * `ParseTime`, the parser the rest of the model uses, is total: it agrees
   * with `ParseTimeAsWritten` (whose `isdigit()` is the ASCII digits and the
   * non-decimal digits above) wherever that returns, and rejects every reply
   * on which it raises.
   */
  lemma {:induction false} CorrectedParserAgrees(raw: String)
    ensures ParseTimeAsWritten(raw).Returned? ==> ParseTimeAsWritten(raw).result == ParseTime(raw)
    ensures ParseTimeAsWritten(raw).RaisedValueError? ==> ParseTime(raw) == None
  {
    var parts := Split(raw, ':');
    if |parts| == 2 && IsDecimal(parts[0]) && IsDecimal(parts[1]) {
      assert PyIsDigits(parts[0]) && PyIsDigits(parts[1]);
    }
  }
}
