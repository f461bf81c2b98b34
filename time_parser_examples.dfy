/** Concrete replies and what the schedule-time grammar makes of them. */
module TimeParserExamples {
  import opened Wrappers
  import opened PyStr
  import opened TimeParser

  /** A reply with leading zeros, `"009:5"`, is accepted as `"09:05"`. */
  lemma LeadingZerosAccepted()
    ensures ParseTime("009:5") == Some("09:05")
  {
    assert DigitsValue("9") == 9 by { assert "9"[..0] == ""; }
    assert DigitsValue("5") == 5 by { assert "5"[..0] == ""; }
    LeadingZeroValue("9");
    assert ['0'] + "9" == "09";
    LeadingZeroValue("09");
    assert ['0'] + "09" == "009";
    ParseTimeAccepts("009", "5");
    assert "009" + ":" + "5" == "009:5";
    assert Pad2(9) == "09" && Pad2(5) == "05";
    assert Canonical("009", "5") == "09:05";
  }

  /** A one-digit hour is zero-padded: `"9:30"` becomes `"09:30"`. */
  lemma ShortHourPadded()
    ensures ParseTime("9:30") == Some("09:30")
  {
    assert DigitsValue("9") == 9 by { assert "9"[..0] == ""; }
    assert DigitsValue("30") == 30 by { assert "30"[..1] == "3"; assert "3"[..0] == ""; }
    ParseTimeAccepts("9", "30");
    assert "9" + ":" + "30" == "9:30";
    assert Pad2(9) == "09" && Pad2(30) == "30";
    assert Canonical("9", "30") == "09:30";
  }

  /** The hour `25` is out of range. */
  lemma HourOutOfRangeRejected()
    ensures ParseTime("25:00") == None
  {
    assert DigitsValue("25") == 25 by { assert "25"[..1] == "2"; assert "2"[..0] == ""; }
    RejectsOutOfRange("25", "00");
    assert "25" + ":" + "00" == "25:00";
  }

  /** A reply with seconds has three segments and is rejected. */
  lemma SecondsRejected()
    ensures ParseTime("12:30:00") == None
  {
    ParseTimeSpec("12:30:00");
    forall i | 0 <= i < 8 && "12:30:00"[i] == ':'
      ensures !ValidFields("12:30:00"[..i], "12:30:00"[i + 1..])
    {
      assert i == 2 || i == 5;
      assert "12:30:00"[3..][2] == ':' && "12:30:00"[..5][2] == ':';
    }
  }

  /** An empty segment or a sign is not a digit string. */
  lemma MalformedSegmentsRejected()
    ensures ParseTime(":30") == None
    ensures ParseTime("-1:30") == None
  {
    SplitAtOnlySep("", "30", ':');
    assert "" + ":" + "30" == ":30";
    SplitAtOnlySep("-1", "30", ':');
    assert "-1" + ":" + "30" == "-1:30";
  }

  /** Without a colon there is only one segment. */
  lemma MissingColonRejected()
    ensures ParseTime("") == None
    ensures ParseTime("1230") == None
  {
    SplitWithoutSep("", ':');
    SplitWithoutSep("1230", ':');
  }

  lemma TrimStartSpaces()
    ensures TrimStart(" CLEAR ") == "CLEAR "
  {
    assert IsSpace(' ') && !IsSpace('C');
    assert " CLEAR "[1..] == "CLEAR ";
    assert TrimStart("CLEAR ") == "CLEAR ";
  }

  lemma TrimEndSpaces()
    ensures TrimEnd("CLEAR ") == "CLEAR"
  {
    assert IsSpace(' ') && !IsSpace('R');
    assert "CLEAR "[..5] == "CLEAR";
    assert TrimEnd("CLEAR") == "CLEAR";
  }

  lemma StripSpaces()
    ensures Strip(" CLEAR ") == "CLEAR"
  {
    TrimStartSpaces();
    TrimEndSpaces();
  }

  lemma LowerLatin()
    ensures Lower("CLEAR") == "clear"
  {
  }

  /** The keyword test ignores case and surrounding white space. */
  lemma ClearIgnoresCaseAndSpace()
    ensures ClassifyReply(Some(" CLEAR ")) == Clear
  {
    StripSpaces();
    LowerLatin();
  }

  lemma LowerCyrillic()
    ensures Lower("Удалить") == "удалить"
  {
  }

  lemma StripNothingAround()
    ensures Strip("Удалить") == "Удалить"
  {
    var w := "Удалить";
    assert !IsSpace(w[0]) && !IsSpace(w[|w| - 1]);
  }

  /** Cyrillic capitals are lower-cased too, so `"Удалить"` clears. */
  lemma ClearInRussian()
    ensures ClassifyReply(Some("Удалить")) == Clear
  {
    LowerCyrillic();
    StripNothingAround();
  }

  /** A message without text reads as the empty reply, which is invalid. */
  lemma MissingTextInvalid()
    ensures ClassifyReply(None) == Invalid
  {
    assert Strip("") == "";
    SplitWithoutSep("", ':');
  }

  lemma TrimStartSpacedTime()
    ensures TrimStart(" 9:30 ") == "9:30 "
  {
    assert IsSpace(' ') && !IsSpace('9');
    assert " 9:30 "[1..] == "9:30 ";
    assert TrimStart("9:30 ") == "9:30 ";
  }

  lemma TrimEndSpacedTime()
    ensures TrimEnd("9:30 ") == "9:30"
  {
    assert IsSpace(' ') && !IsSpace('0');
    assert "9:30 "[..4] == "9:30";
    assert TrimEnd("9:30") == "9:30";
  }

  lemma StripSpacedTime()
    ensures Strip(" 9:30 ") == "9:30"
  {
    TrimStartSpacedTime();
    TrimEndSpacedTime();
  }

  /** White space around a time is stripped before parsing. */
  lemma SpacedTimeAccepted()
    ensures ClassifyReply(Some(" 9:30 ")) == SetTime("09:30")
  {
    StripSpacedTime();
    ShortHourPadded();
    ClearAndTimeDisjoint("9:30");
  }

  lemma StripOutOfRange()
    ensures Strip("25:00") == "25:00"
  {
    var w := "25:00";
    assert !IsSpace(w[0]) && !IsSpace(w[|w| - 1]);
  }

  /** The reply `25:00` is neither a keyword nor a time. */
  lemma OutOfRangeReplyInvalid()
    ensures ClassifyReply(Some("25:00")) == Invalid
  {
    StripOutOfRange();
    HourOutOfRangeRejected();
    StartsWithDigitOrColonNotKeyword(Lower("25:00"));
  }
}
