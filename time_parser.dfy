/**
 * The schedule-time reply grammar of the preferences flow: `_parse_time`
 * and the clear-keyword test that `save_schedule_time` applies first.
 */
module TimeParser {
  import opened Wrappers
  import opened PyStr

  /** Hour and minute fields as the parser admits them: ASCII digits, hour at most 23, minute at most 59. */
  predicate ValidFields(hours: String, minutes: String) {
    && IsDecimal(hours) && IsDecimal(minutes)
    && DigitsValue(hours) <= 23 && DigitsValue(minutes) <= 59
  }

  /** The canonical stored form `HH:MM` of a valid pair of fields. */
  function Canonical(hours: String, minutes: String): String
    requires ValidFields(hours, minutes)
  {
    Pad2(DigitsValue(hours)) + ":" + Pad2(DigitsValue(minutes))
  }

  /** Exactly two digits, a colon, two digits, denoting an hour in 0..23 and a minute in 0..59. */
  predicate IsCanonicalTime(s: String) {
    |s| == 5 && s[2] == ':' && ValidFields(s[..2], s[3..])
  }

  /** `_parse_time`: the zero-padded `HH:MM` form of `raw`, or `None` when `raw` is not a time. */
  function ParseTime(raw: String): (r: Option<String>)
    ensures r.Some? ==> IsCanonicalTime(r.value)
  {
    var parts := Split(raw, ':');
    if |parts| != 2 || !(IsDecimal(parts[0]) && IsDecimal(parts[1])) then None
    else
      var hour, minute := DigitsValue(parts[0]), DigitsValue(parts[1]);
      if !(0 <= hour <= 23 && 0 <= minute <= 59) then None
      else
        var h, m := Pad2(hour), Pad2(minute);
        assert (h + ":" + m)[..2] == h && (h + ":" + m)[3..] == m;
        Some(h + ":" + m)
  }

  /** Every pair of valid fields around one colon is accepted and canonicalised. */
  lemma {:induction false} ParseTimeAccepts(hours: String, minutes: String)
    requires ValidFields(hours, minutes)
    ensures ParseTime(hours + ":" + minutes) == Some(Canonical(hours, minutes))
  {
    SplitAtOnlySep(hours, minutes, ':');
  }

  /**
   * `ParseTime` succeeds exactly when `raw` has a colon with valid fields on
   * either side of it; then the result is their canonical form.
   */
  lemma {:induction false} ParseTimeSpec(raw: String)
    ensures ParseTime(raw).Some? <==>
      exists i :: 0 <= i < |raw| && raw[i] == ':' && ValidFields(raw[..i], raw[i + 1..])
    ensures forall i :: 0 <= i < |raw| && raw[i] == ':' && ValidFields(raw[..i], raw[i + 1..]) ==>
      ParseTime(raw) == Some(Canonical(raw[..i], raw[i + 1..]))
  {
    forall i | 0 <= i < |raw| && raw[i] == ':' && ValidFields(raw[..i], raw[i + 1..])
      ensures ParseTime(raw) == Some(Canonical(raw[..i], raw[i + 1..]))
    {
      assert raw == raw[..i] + ":" + raw[i + 1..];
      ParseTimeAccepts(raw[..i], raw[i + 1..]);
    }
    if ParseTime(raw).Some? {
      var parts := Split(raw, ':');
      JoinTwo(parts, ':');
      var i := |parts[0]|;
      assert raw[..i] == parts[0] && raw[i] == ':' && raw[i + 1..] == parts[1];
      assert ValidFields(raw[..i], raw[i + 1..]);
    }
  }

  /** A value out of range is rejected. */
  lemma {:induction false} RejectsOutOfRange(hours: String, minutes: String)
    requires IsDecimal(hours) && IsDecimal(minutes)
    requires DigitsValue(hours) > 23 || DigitsValue(minutes) > 59
    ensures ParseTime(hours + ":" + minutes) == None
  {
    SplitAtOnlySep(hours, minutes, ':');
  }

  /** A canonical time is its own parse, so `ParseTime` is idempotent on its own output. */
  lemma {:induction false} CanonicalIsFixedPoint(s: String)
    requires IsCanonicalTime(s)
    ensures ParseTime(s) == Some(s)
  {
    assert s == s[..2] + ":" + s[3..];
    ParseTimeAccepts(s[..2], s[3..]);
    var h, m := s[..2], s[3..];
    assert h == [h[0], h[1]] && m == [m[0], m[1]];
    assert h[..1] == [h[0]] && m[..1] == [m[0]];
    assert Pad2(DigitsValue(h)) == h;
    assert Pad2(DigitsValue(m)) == m;
  }

  /** Re-parsing a stored time gives it back. */
  lemma {:induction false} ParseTimeIdempotent(raw: String)
    requires ParseTime(raw).Some?
    ensures ParseTime(ParseTime(raw).value) == ParseTime(raw)
  {
    CanonicalIsFixedPoint(ParseTime(raw).value);
  }

  /** The replies `save_schedule_time` takes as "remove the scheduled time", after lower-casing. */
  const ClearKeywords: set<String> := {"clear", "none", "null", "удалить", "сбросить"}

  /** The three outcomes of a schedule-time reply. */
  datatype ScheduleInput = Clear | SetTime(time: String) | Invalid

  /**
   * How `save_schedule_time` reads the text of a reply: strip it, test the
   * lower-cased form against the clear keywords, and only then parse it.
   */
  function ClassifyReply(text: Option<String>): (r: ScheduleInput)
    ensures r.Clear? <==> Lower(Strip(text.GetOr(""))) in ClearKeywords
    ensures r.SetTime? ==> IsCanonicalTime(r.time) && ParseTime(Strip(text.GetOr(""))) == Some(r.time)
    ensures r.Invalid? <==>
      Lower(Strip(text.GetOr(""))) !in ClearKeywords && ParseTime(Strip(text.GetOr(""))).None?
  {
    var raw := Strip(text.GetOr(""));
    if Lower(raw) in ClearKeywords then Clear
    else match ParseTime(raw)
      case None => Invalid
      case Some(t) => SetTime(t)
  }

  /** Every clear keyword starts with a letter. */
  lemma StartsWithDigitOrColonNotKeyword(s: String)
    requires |s| > 0 && (IsDigit(s[0]) || s[0] == ':')
    ensures s !in ClearKeywords
  {
  }

  /** No string is both a clear keyword and a time, so the order of the two tests never hides a time. */
  lemma {:induction false} ClearAndTimeDisjoint(raw: String)
    requires ParseTime(raw).Some?
    ensures Lower(raw) !in ClearKeywords
  {
    ParseTimeSpec(raw);
    var i :| 0 <= i < |raw| && raw[i] == ':' && ValidFields(raw[..i], raw[i + 1..]);
    assert raw[0] == ':' || IsDigit(raw[0]) by {
      if i > 0 { assert raw[..i][0] == raw[0]; }
    }
    StartsWithDigitOrColonNotKeyword(Lower(raw));
  }

}
