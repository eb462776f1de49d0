/** The Home Assistant config flow's user step (config_flow.py): the
    callsign pattern, the prioritised field checks and the entry it creates. */
module ConfigFlow {
  import opened Wrappers
  import opened Text

  // ---------------------------------------------------------------------
  // CALLSIGN_REGEX = ^[A-Z0-9]{1,3}[0-9][A-Z0-9]{0,4}$ with IGNORECASE
  // ---------------------------------------------------------------------

  /** The two character classes the pattern uses. */
  datatype Class = Alnum | Digit

  /** One pattern element `class{lo,hi}`. */
  datatype Piece = Piece(cls: Class, lo: nat, hi: nat)

  /** Class membership under IGNORECASE: `[A-Z0-9]` also takes `a`-`z`. */
  predicate InClass(cls: Class, c: char) {
    match cls
    case Alnum => IsUpperLetter(UpperChar(c)) || IsDigit(c)
    case Digit => IsDigit(c)
  }

  predicate AllIn(cls: Class, s: string) {
    forall i :: 0 <= i < |s| ==> InClass(cls, s[i])
  }

  /** `s` is exactly a concatenation of runs, one per piece, each run in its
      piece's class and of a length within the piece's bounds. */
  predicate Denotes(pat: seq<Piece>, s: string)
    decreases |pat|
  {
    if pat == [] then s == []
    else
      exists k ::
        && pat[0].lo <= k <= pat[0].hi && k <= |s|
        && AllIn(pat[0].cls, s[..k]) && Denotes(pat[1..], s[k..])
  }

  const CallsignPattern: seq<Piece> :=
    [Piece(Alnum, 1, 3), Piece(Digit, 1, 1), Piece(Alnum, 0, 4)]

  /** `CALLSIGN_REGEX.match(s)`: `^` anchors at the start and `$` matches at
      the end of the text or just before a final line feed. */
  predicate CallsignMatch(s: string) {
    || Denotes(CallsignPattern, s)
    || (s != [] && s[|s| - 1] == '\n' && Denotes(CallsignPattern, s[..|s| - 1]))
  }

  /** An ASCII letter of either case or a decimal digit. */
  predicate IsAlnum(c: char) {
    IsUpperLetter(UpperChar(c)) || IsDigit(c)
  }

  /** The shape of a valid callsign stated directly: 2 to 8 ASCII letters
      and digits, with a digit at index 1, 2 or 3 followed by at most four
      characters. */
  predicate CallsignShape(s: string) {
    && 2 <= |s| <= 8
    && (forall i :: 0 <= i < |s| ==> IsAlnum(s[i]))
    && exists p :: 1 <= p <= 3 && p < |s| && IsDigit(s[p]) && |s| - p - 1 <= 4
  }

  lemma DenotesEmpty(s: string)
    ensures Denotes([], s) <==> s == []
  {
  }

  /** The last piece, `[A-Z0-9]{0,4}`, takes up to four letters and digits. */
  lemma DenotesSuffix(s: string)
    ensures Denotes([Piece(Alnum, 0, 4)], s) <==> |s| <= 4 && AllIn(Alnum, s)
  {
    var pat := [Piece(Alnum, 0, 4)];
    assert pat[1..] == [];
    if |s| <= 4 && AllIn(Alnum, s) {
      assert s[..|s|] == s;
      assert s[|s|..] == [];
      DenotesEmpty(s[|s|..]);
    }
  }

  /** `[0-9][A-Z0-9]{0,4}`: a digit followed by up to four letters and digits. */
  lemma DenotesDigitThenSuffix(s: string)
    ensures Denotes([Piece(Digit, 1, 1), Piece(Alnum, 0, 4)], s) <==>
              1 <= |s| <= 5 && IsDigit(s[0]) && AllIn(Alnum, s[1..])
  {
    var pat := [Piece(Digit, 1, 1), Piece(Alnum, 0, 4)];
    assert pat[1..] == [Piece(Alnum, 0, 4)];
    if Denotes(pat, s) {
      var k :| 1 <= k <= 1 && k <= |s| && AllIn(Digit, s[..k]) && Denotes(pat[1..], s[k..]);
      assert s[..k][0] == s[0];
      DenotesSuffix(s[k..]);
    }
    if 1 <= |s| <= 5 && IsDigit(s[0]) && AllIn(Alnum, s[1..]) {
      assert AllIn(Digit, s[..1]) by { assert s[..1] == [s[0]]; }
      DenotesSuffix(s[1..]);
    }
  }

  /** The pattern means exactly the callsign shape. */
  lemma CallsignPatternShape(s: string)
    ensures Denotes(CallsignPattern, s) <==> CallsignShape(s)
  {
    if Denotes(CallsignPattern, s) { ShapeOfMatch(s); }
    if CallsignShape(s) { MatchOfShape(s); }
  }

  lemma ShapeOfMatch(s: string)
    requires Denotes(CallsignPattern, s)
    ensures CallsignShape(s)
  {
    var tail := [Piece(Digit, 1, 1), Piece(Alnum, 0, 4)];
    assert CallsignPattern[1..] == tail;
    var k :| 1 <= k <= 3 && k <= |s| && AllIn(Alnum, s[..k]) && Denotes(tail, s[k..]);
    DenotesDigitThenSuffix(s[k..]);
    assert s[k] == s[k..][0];
    forall i | 0 <= i < |s| ensures IsAlnum(s[i]) {
      if i < k { assert s[i] == s[..k][i]; }
      else if i > k { assert s[i] == s[k..][1..][i - k - 1]; }
    }
  }

  lemma MatchOfShape(s: string)
    requires CallsignShape(s)
    ensures Denotes(CallsignPattern, s)
  {
    var tail := [Piece(Digit, 1, 1), Piece(Alnum, 0, 4)];
    assert CallsignPattern[1..] == tail;
    var p :| 1 <= p <= 3 && p < |s| && IsDigit(s[p]) && |s| - p - 1 <= 4;
    AlnumSlice(s, 0, p);
    AlnumSlice(s, p + 1, |s|);
    assert s[p..][1..] == s[p + 1..];
    DenotesDigitThenSuffix(s[p..]);
    assert Denotes(tail, s[p..]);
  }

  /** Every slice of a string of letters and digits is one. */
  lemma AlnumSlice(s: string, a: nat, b: nat)
    requires a <= b <= |s| && forall i :: 0 <= i < |s| ==> IsAlnum(s[i])
    ensures AllIn(Alnum, s[a..b])
  {
    forall i | 0 <= i < b - a ensures InClass(Alnum, s[a..b][i]) {
      assert s[a..b][i] == s[a + i];
    }
  }

  /** A string without trailing whitespace matches the regex exactly when it
      has the callsign shape: the line-feed allowance of `$` never applies. */
  lemma CallsignMatchOfUnpadded(s: string)
    requires s == [] || !IsSpace(s[|s| - 1])
    ensures CallsignMatch(s) <==> CallsignShape(s)
  {
    CallsignPatternShape(s);
  }

  /** The regex also accepts a callsign followed by one line feed. */
  lemma CallsignMatchTakesLineFeed(s: string)
    requires CallsignShape(s)
    ensures CallsignMatch(s + "\n")
  {
    assert (s + "\n")[..|s|] == s;
    CallsignPatternShape(s);
  }

  // ---------------------------------------------------------------------
  // async_step_user
  // ---------------------------------------------------------------------

  /** What the step returns: the form again with its errors, or a new entry. */
  datatype FlowResult =
    | ShowForm(errors: map<string, string>)
    | CreateEntry(uniqueId: string, title: string, data: map<string, string>)

  /** `value.strip().upper()`: the callsign as the flow checks and stores it. */
  function Normalise(raw: string): (r: string)
    ensures |r| <= |raw|
    ensures forall i :: 0 <= i < |r| ==> !IsLowerLetter(r[i])
  {
    Upper(Strip(raw))
  }

  /** The truthiness of `user_input.get(key)`. */
  predicate Present(input: map<string, string>, key: string) {
    key in input && input[key] != ""
  }

  /** `user_input.get("callsign", "")`, normalised. */
  function CallsignOf(input: map<string, string>): string {
    Normalise(if "callsign" in input then input["callsign"] else "")
  }

  /** The user step. `None` stands for the first visit, before the form has
      been submitted. */
  function StepUser(input: Option<map<string, string>>): (r: FlowResult)
    ensures input.None? ==> r == ShowForm(map[])
    ensures r.ShowForm? ==> r.errors.Keys <= {"base"}
    ensures input.Some? && !CallsignMatch(CallsignOf(input.value)) ==>
              r == ShowForm(map["base" := "invalid_callsign"])
    ensures r.CreateEntry? <==>
              && input.Some? && CallsignMatch(CallsignOf(input.value))
              && Present(input.value, "api_key") && Present(input.value, "email")
              && Present(input.value, "app_password")
    ensures r.CreateEntry? ==>
              && r.uniqueId == CallsignOf(input.value)
              && r.title == "ClubLog (" + r.uniqueId + ")"
              && r.data == input.value
  {
    match input
    case None => ShowForm(map[])
    case Some(ui) =>
      var callsign := CallsignOf(ui);
      if !CallsignMatch(callsign) then ShowForm(map["base" := "invalid_callsign"])
      else if !Present(ui, "api_key") then ShowForm(map["base" := "api_key_required"])
      else if !Present(ui, "email") then ShowForm(map["base" := "email_required"])
      else if !Present(ui, "app_password") then ShowForm(map["base" := "app_password_required"])
      else CreateEntry(callsign, "ClubLog (" + callsign + ")", ui)
  }

  /** The single error reported is the first failing check in the order
      callsign, API key, email, app password: each error implies that every
      earlier check passed and its own check failed. */
  lemma ErrorPriority(ui: map<string, string>)
    ensures var r := StepUser(Some(ui));
            && (r == ShowForm(map["base" := "invalid_callsign"]) <==>
                  !CallsignMatch(CallsignOf(ui)))
            && (r == ShowForm(map["base" := "api_key_required"]) <==>
                  CallsignMatch(CallsignOf(ui)) && !Present(ui, "api_key"))
            && (r == ShowForm(map["base" := "email_required"]) <==>
                  CallsignMatch(CallsignOf(ui)) && Present(ui, "api_key") && !Present(ui, "email"))
            && (r == ShowForm(map["base" := "app_password_required"]) <==>
                  CallsignMatch(CallsignOf(ui)) && Present(ui, "api_key") && Present(ui, "email")
                  && !Present(ui, "app_password"))
  {
    var r := StepUser(Some(ui));
    var codes := ["invalid_callsign", "api_key_required", "email_required", "app_password_required"];
    assert codes[0] != codes[1] && codes[0] != codes[2] && codes[0] != codes[3];
    assert codes[1] != codes[2] && codes[1] != codes[3] && codes[2] != codes[3];
    if r.ShowForm? {
      assert "base" in r.errors;
    }
  }

  /** A submitted form either creates an entry or reports exactly one error. */
  lemma SubmittedFormHasOneError(ui: map<string, string>)
    ensures StepUser(Some(ui)).ShowForm? ==> |StepUser(Some(ui)).errors| == 1
  {
  }

  /** Normalising is idempotent, and a created entry's unique id is the
      normalised callsign: upper-case, unpadded and of the callsign shape. */
  lemma NormaliseIdempotent(raw: string)
    ensures Normalise(Normalise(raw)) == Normalise(raw)
  {
    var s := Strip(raw);
    var u := Upper(s);
    if u != [] {
      assert !IsSpace(u[0]) && !IsSpace(u[|u| - 1]);
      assert LeadingSpaces(u) == 0;
      assert TrailingSpaces(u) == 0;
    }
    assert Strip(u) == u;
    assert Upper(u) == u;
  }

  lemma EntryIdIsCallsign(ui: map<string, string>)
    requires StepUser(Some(ui)).CreateEntry?
    ensures var id := StepUser(Some(ui)).uniqueId;
            CallsignShape(id) && Normalise(id) == id
  {
    var raw := if "callsign" in ui then ui["callsign"] else "";
    var id := CallsignOf(ui);
    NormaliseIdempotent(raw);
    UnpaddedOfNormalised(raw);
    CallsignMatchOfUnpadded(id);
  }

  lemma UnpaddedOfNormalised(raw: string)
    ensures Normalise(raw) == [] || !IsSpace(Normalise(raw)[|Normalise(raw)| - 1])
  {
    var s := Strip(raw);
    if s != [] {
      assert Normalise(raw)[|s| - 1] == UpperChar(s[|s| - 1]);
    }
  }

  /** Changing the case of the callsign, or the whitespace around it, changes
      neither the verdict nor the unique id. */
  lemma StepUserIgnoresCallsignCase(ui: map<string, string>, raw: string)
    requires "callsign" in ui && Normalise(raw) == Normalise(ui["callsign"])
    ensures var r1, r2 := StepUser(Some(ui)), StepUser(Some(ui["callsign" := raw]));
            && r1.ShowForm? == r2.ShowForm?
            && (r1.ShowForm? ==> r1 == r2)
            && (r1.CreateEntry? ==> r1.uniqueId == r2.uniqueId && r1.title == r2.title)
  {
    var ui2 := ui["callsign" := raw];
    assert CallsignOf(ui2) == CallsignOf(ui);
    OtherFieldsKept(ui, raw);
    SameChecksSameStep(ui, ui2);
  }

  /** Replacing the callsign leaves the other three fields as they were. */
  lemma OtherFieldsKept(ui: map<string, string>, raw: string)
    ensures var ui2 := ui["callsign" := raw];
            && (Present(ui2, "api_key") <==> Present(ui, "api_key"))
            && (Present(ui2, "email") <==> Present(ui, "email"))
            && (Present(ui2, "app_password") <==> Present(ui, "app_password"))
  {
    assert |"callsign"| == 8 && |"api_key"| == 7 && |"email"| == 5 && |"app_password"| == 12;
  }

  /** Two forms with the same normalised callsign and the same fields
      present get the same verdict and, on success, the same id and title. */
  lemma SameChecksSameStep(ui1: map<string, string>, ui2: map<string, string>)
    requires CallsignOf(ui1) == CallsignOf(ui2)
    requires Present(ui1, "api_key") <==> Present(ui2, "api_key")
    requires Present(ui1, "email") <==> Present(ui2, "email")
    requires Present(ui1, "app_password") <==> Present(ui2, "app_password")
    ensures var r1, r2 := StepUser(Some(ui1)), StepUser(Some(ui2));
            && r1.ShowForm? == r2.ShowForm?
            && (r1.ShowForm? ==> r1 == r2)
            && (r1.CreateEntry? ==> r1.uniqueId == r2.uniqueId && r1.title == r2.title)
  {
  }
}
