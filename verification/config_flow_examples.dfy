/** Callsigns and forms from the config flow's unit tests, as lemmas about
    the model. */
module ConfigFlowExamples {
  import opened Wrappers
  import opened Text
  import opened ConfigFlow

  lemma AcceptsShortest()
    ensures CallsignMatch("K5")
  {
    assert IsDigit("K5"[1]);
    MatchOfShape("K5");
  }

  lemma AcceptsLeadingDigit()
    ensures CallsignMatch("5B4AHJ")
  {
    assert IsDigit("5B4AHJ"[2]);
    MatchOfShape("5B4AHJ");
  }

  /** IGNORECASE: lower-case letters are accepted too. */
  lemma AcceptsLowerCase()
    ensures CallsignMatch("kd5qlm")
  {
    assert IsDigit("kd5qlm"[2]);
    MatchOfShape("kd5qlm");
  }

  lemma RejectsEmptyAndSingle()
    ensures !CallsignMatch("") && !CallsignMatch("A")
  {
    CallsignMatchOfUnpadded("");
    CallsignMatchOfUnpadded("A");
  }

  lemma RejectsTooLong()
    ensures !CallsignMatch("ABCD1EFGH")
  {
    CallsignMatchOfUnpadded("ABCD1EFGH");
  }

  lemma RejectsNoDigit()
    ensures !CallsignMatch("ABCD")
  {
    NoDigitRejected("ABCD");
  }

  lemma NoDigitRejected(s: string)
    requires forall i :: 0 <= i < |s| ==> !IsDigit(s[i])
    ensures !CallsignMatch(s)
  {
    if s != [] && s[|s| - 1] == '\n' {
      CallsignPatternShape(s[..|s| - 1]);
    }
    CallsignPatternShape(s);
  }

  lemma RejectsSlash()
    ensures !CallsignMatch("KD5/QLM")
  {
    CallsignMatchOfUnpadded("KD5/QLM");
    assert !IsAlnum("KD5/QLM"[3]);
  }

  /** A form with every field empty reports the callsign first. */
  lemma AllEmptyReportsCallsign()
    ensures StepUser(Some(map["callsign" := "", "api_key" := "", "email" := "", "app_password" := ""]))
            == ShowForm(map["base" := "invalid_callsign"])
  {
    var ui := map["callsign" := "", "api_key" := "", "email" := "", "app_password" := ""];
    assert Strip("") == "";
    assert CallsignOf(ui) == "";
    CallsignMatchOfUnpadded("");
  }

  /** A valid callsign with a missing app password reports the password. */
  lemma MissingPasswordReported(ui: map<string, string>)
    requires ui == map["callsign" := "KD5QLM", "api_key" := "test-key",
                       "email" := "test@example.com", "app_password" := ""]
    ensures StepUser(Some(ui)) == ShowForm(map["base" := "app_password_required"])
  {
    FieldsOfMissingPassword(ui);
    NormalisedKD5QLM();
    ValidCallsignReachesFields(ui);
  }

  lemma FieldsOfMissingPassword(ui: map<string, string>)
    requires ui == map["callsign" := "KD5QLM", "api_key" := "test-key",
                       "email" := "test@example.com", "app_password" := ""]
    ensures "callsign" in ui && ui["callsign"] == "KD5QLM"
    ensures Present(ui, "api_key") && Present(ui, "email") && !Present(ui, "app_password")
  {
    assert |"callsign"| == 8 && |"api_key"| == 7 && |"email"| == 5 && |"app_password"| == 12;
  }

  /** With the callsign KD5QLM, written in any case and padding, the
      outcome depends on the other three fields alone. */
  lemma ValidCallsignReachesFields(ui: map<string, string>)
    requires "callsign" in ui && Normalise(ui["callsign"]) == "KD5QLM"
    ensures !Present(ui, "api_key") ==> StepUser(Some(ui)) == ShowForm(map["base" := "api_key_required"])
    ensures Present(ui, "api_key") && !Present(ui, "email") ==>
              StepUser(Some(ui)) == ShowForm(map["base" := "email_required"])
    ensures Present(ui, "api_key") && Present(ui, "email") && !Present(ui, "app_password") ==>
              StepUser(Some(ui)) == ShowForm(map["base" := "app_password_required"])
    ensures Present(ui, "api_key") && Present(ui, "email") && Present(ui, "app_password") ==>
              StepUser(Some(ui)) == CreateEntry("KD5QLM", "ClubLog (KD5QLM)", ui)
  {
    AcceptsUpper();
    TitleOfKD5QLM();
  }

  lemma TitleOfKD5QLM()
    ensures "ClubLog (" + "KD5QLM" + ")" == "ClubLog (KD5QLM)"
  {
  }

  /** A padded lower-case callsign creates the entry under its normalised form. */
  lemma PaddedLowerCaseCreatesEntry(ui: map<string, string>)
    requires ui == map["callsign" := "  kd5qlm  ", "api_key" := "test-key",
                       "email" := "test@example.com", "app_password" := "test-pass"]
    ensures StepUser(Some(ui)) == CreateEntry("KD5QLM", "ClubLog (KD5QLM)", ui)
  {
    FieldsOfPaddedCallsign(ui);
    ValidCallsignReachesFields(ui);
  }

  lemma FieldsOfPaddedCallsign(ui: map<string, string>)
    requires ui == map["callsign" := "  kd5qlm  ", "api_key" := "test-key",
                       "email" := "test@example.com", "app_password" := "test-pass"]
    ensures "callsign" in ui && Normalise(ui["callsign"]) == "KD5QLM"
    ensures Present(ui, "api_key") && Present(ui, "email") && Present(ui, "app_password")
  {
    assert |"callsign"| == 8 && |"api_key"| == 7 && |"email"| == 5 && |"app_password"| == 12;
    var c := ui["callsign"];
    assert c == "  kd5qlm  ";
    NormalisedPadded();
  }

  lemma AcceptsUpper()
    ensures CallsignMatch("KD5QLM")
  {
    assert IsDigit("KD5QLM"[2]);
    MatchOfShape("KD5QLM");
  }

  lemma NormalisedKD5QLM()
    ensures Normalise("KD5QLM") == "KD5QLM"
  {
    StripOfUnpadded("KD5QLM");
  }

  lemma NormalisedPadded()
    ensures Normalise("  kd5qlm  ") == "KD5QLM"
  {
    StripWithin("  ");
    PaddedCallsign();
    UpperKD5QLM();
  }

  lemma StripWithin(w: string)
    requires AllSpace(w)
    ensures Strip(w + "kd5qlm" + w) == "kd5qlm"
  {
    StripIgnoresPadding(w, "kd5qlm", w);
    StripOfUnpadded("kd5qlm");
  }

  lemma PaddedCallsign()
    ensures "  " + "kd5qlm" + "  " == "  kd5qlm  "
  {
  }

  lemma UpperKD5QLM()
    ensures Upper("kd5qlm") == "KD5QLM"
  {
  }
}
