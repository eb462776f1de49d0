/** The examples the bridge's unit tests check for the two string
    converters of config.py, as lemmas about the model. Each lemma holds one
    literal: the solver handles literal strings one at a time cheaply. */
module ConfigExamples {
  import opened Wrappers
  import opened Text
  import opened Config

  /** Lower-case accepted spellings. */
  lemma AcceptsTrue()
    ensures StrToBool("true")
  {
    AcceptsLowerCase("true");
  }

  lemma AcceptsOne()
    ensures StrToBool("1")
  {
    AcceptsLowerCase("1");
  }

  lemma AcceptsYes()
    ensures StrToBool("yes")
  {
    AcceptsLowerCase("yes");
  }

  lemma AcceptsOn()
    ensures StrToBool("on")
  {
    AcceptsLowerCase("on");
  }

  lemma AcceptsUpperOn()
    ensures StrToBool("ON")
  {
    StripOfUnpadded("ON");
    assert Lower("ON") == "on";
  }

  /** An upper-case spelling is accepted. */
  lemma AcceptsUpperTrue()
    ensures StrToBool("TRUE")
  {
    StripOfUnpadded("TRUE");
    assert Lower("TRUE") == "true";
  }

  /** A padded spelling is accepted. */
  lemma AcceptsPaddedTrue()
    ensures StrToBool("  true  ")
  {
    AcceptsTrueWithin("  ");
    Padded("true");
  }

  /** The test's padded literals are the plain ones between two spaces. */
  lemma Padded(s: string)
    requires s in {"true", "456"}
    ensures s == "true" ==> "  " + s + "  " == "  true  "
    ensures s == "456" ==> "  " + s + "  " == "  456  "
  {
  }

  lemma AcceptsTrueWithin(w: string)
    requires AllSpace(w)
    ensures StrToBool(w + "true" + w)
  {
    AcceptsLowerCase("true");
    StrToBoolIgnoresPadding(w, "true", w);
  }

  /** Rejected spellings. */
  lemma RejectsFalse()
    ensures !StrToBool("false") && !StrToBool("0") && !StrToBool("off")
  {
    RejectsLowerCase("false");
    RejectsLowerCase("0");
    RejectsLowerCase("off");
  }

  lemma RejectsOthers()
    ensures !StrToBool("") && !StrToBool("  ") && !StrToBool("2") && !StrToBool("enabled")
  {
    RejectsLowerCase("2");
    RejectsLowerCase("enabled");
    assert AllSpace("  ");
  }

  /** A padded number is read. */
  lemma ReadsPadded()
    ensures StrToInt(Some("  456  "), 0) == 456
  {
    ReadsWithin("  ");
    Padded("456");
  }

  lemma ReadsWithin(w: string)
    requires AllSpace(w)
    ensures StrToInt(Some(w + "456" + w), 0) == 456
  {
    assert Decimal(456) == "456" by {
      assert NatDigits(45) == "45" by { assert NatDigits(4) == "4"; }
    }
    StrToIntIgnoresPadding(w, 456, w, 0);
  }

  /** A negative number is read. */
  lemma ReadsNegative()
    ensures StrToInt(Some("-1"), 0) == -1
  {
    StrToIntRoundTrip(-1, 0);
    assert Decimal(-1) == "-1";
  }

  /** Text that is not an integer, and a missing value, give the default. */
  lemma FallsBack()
    ensures StrToInt(Some("abc"), 999) == 999
    ensures StrToInt(Some(""), 1883) == 1883
    ensures StrToInt(Some("3.14"), 0) == 0
    ensures StrToInt(None, 42) == 42
  {
    StripOfUnpadded("abc");
    StrToIntRejectsForeignCharacter("abc", 999, 0);
    StripOfUnpadded("3.14");
    StrToIntRejectsForeignCharacter("3.14", 0, 1);
    assert Strip("") == "";
  }
}
