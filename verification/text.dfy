/** ASCII text helpers shared by the configuration parsers, the config-flow
    validator and the MQTT topic builders: Python's `str.strip()`,
    `str.lower()`, `str.upper()` and `str(int)` restricted to ASCII. */
module Text {

  /** Python's `str.isspace()` on the ASCII range: tab, line feed, vertical
      tab, form feed, carriage return, the four separator controls 0x1C-0x1F
      and the space itself. */
  predicate IsSpace(c: char) {
    c == ' ' || (9 <= c as int <= 13) || (28 <= c as int <= 31)
  }

  predicate AllSpace(s: string) {
    forall i :: 0 <= i < |s| ==> IsSpace(s[i])
  }

  predicate IsDigit(c: char) {
    '0' <= c <= '9'
  }

  predicate IsUpperLetter(c: char) {
    'A' <= c <= 'Z'
  }

  predicate IsLowerLetter(c: char) {
    'a' <= c <= 'z'
  }

  /** Number of whitespace characters at the start of `s`. */
  function LeadingSpaces(s: string): (n: nat)
    ensures n <= |s|
  {
    if |s| > 0 && IsSpace(s[0]) then 1 + LeadingSpaces(s[1..]) else 0
  }

  /** `LeadingSpaces` counts the whole run of whitespace at the start. */
  lemma {:induction false} LeadingSpacesRun(s: string)
    ensures AllSpace(s[..LeadingSpaces(s)])
    ensures LeadingSpaces(s) < |s| ==> !IsSpace(s[LeadingSpaces(s)])
  {
    if |s| > 0 && IsSpace(s[0]) {
      LeadingSpacesRun(s[1..]);
      var n := LeadingSpaces(s);
      assert forall i :: 0 < i < n ==> s[..n][i] == s[1..][..n - 1][i - 1];
    }
  }

  /** Number of whitespace characters at the end of `s`. */
  function TrailingSpaces(s: string): (n: nat)
    ensures n <= |s|
  {
    if |s| > 0 && IsSpace(s[|s| - 1]) then 1 + TrailingSpaces(s[..|s| - 1]) else 0
  }

  /** `TrailingSpaces` counts the whole run of whitespace at the end. */
  lemma {:induction false} TrailingSpacesRun(s: string)
    ensures AllSpace(s[|s| - TrailingSpaces(s)..])
    ensures TrailingSpaces(s) < |s| ==> !IsSpace(s[|s| - TrailingSpaces(s) - 1])
  {
    if |s| > 0 && IsSpace(s[|s| - 1]) {
      var p := s[..|s| - 1];
      TrailingSpacesRun(p);
      var n := TrailingSpaces(s);
      var w, w' := s[|s| - n..], p[|p| - (n - 1)..];
      assert forall i :: 0 <= i < n - 1 ==> w[i] == w'[i];
    }
  }

  /** Python's `s.strip()`: `s` without its leading and trailing whitespace. */
  function Strip(s: string): (r: string)
    ensures |r| <= |s|
    ensures r != [] ==> !IsSpace(r[0]) && !IsSpace(r[|r| - 1])
    ensures AllSpace(s) ==> r == []
  {
    var t := s[LeadingSpaces(s)..];
    LeadingSpacesRun(s);
    TrailingSpacesRun(t);
    t[..|t| - TrailingSpaces(t)]
  }

  lemma {:induction false} LeadingSpacesOfPadded(w: string, s: string)
    requires AllSpace(w)
    requires s == [] || !IsSpace(s[0])
    ensures LeadingSpaces(w + s) == |w|
  {
    if w != [] {
      assert (w + s)[1..] == w[1..] + s;
      LeadingSpacesOfPadded(w[1..], s);
    } else {
      assert w + s == s;
    }
  }

  lemma {:induction false} TrailingSpacesOfPadded(s: string, w: string)
    requires AllSpace(w)
    requires s == [] || !IsSpace(s[|s| - 1])
    ensures TrailingSpaces(s + w) == |w|
  {
    if w != [] {
      var w' := w[..|w| - 1];
      assert (s + w)[..|s + w| - 1] == s + w';
      TrailingSpacesOfPadded(s, w');
    } else {
      assert s + w == s;
    }
  }

  /** Whitespace around a stripped string is removed again by `Strip`:
      stripping does not depend on the surrounding whitespace. */
  lemma StripOfPadded(w1: string, s: string, w2: string)
    requires AllSpace(w1) && AllSpace(w2)
    ensures Strip(w1 + Strip(s) + w2) == Strip(s)
  {
    var r := Strip(s);
    if r == [] {
      assert AllSpace(w1 + r + w2) by {
        forall i | 0 <= i < |w1 + r + w2| ensures IsSpace((w1 + r + w2)[i]) {
          if i < |w1| { assert (w1 + r + w2)[i] == w1[i]; }
          else { assert (w1 + r + w2)[i] == w2[i - |w1|]; }
        }
      }
    } else {
      LeadingSpacesOfPadded(w1, r + w2);
      assert w1 + r + w2 == w1 + (r + w2);
      var t := (w1 + r + w2)[|w1|..];
      assert t == r + w2;
      TrailingSpacesOfPadded(r, w2);
      assert t[..|t| - |w2|] == r;
    }
  }

  /** Every string is its stripped core between two runs of whitespace. */
  lemma StripSplits(s: string) returns (a: nat, b: nat)
    ensures a <= b <= |s|
    ensures s == s[..a] + Strip(s) + s[b..]
    ensures AllSpace(s[..a]) && AllSpace(s[b..])
  {
    a := LeadingSpaces(s);
    var n := TrailingSpaces(s[a..]);
    StripCut(s, a, n);
    LeadingSpacesRun(s);
    TrailingSpacesRun(s[a..]);
    b := |s| - n;
    SliceOfSlice(s, a, b);
    SliceSplit(s, a, b);
  }

  /** Slicing a suffix again is slicing the original. */
  lemma SliceOfSlice<T>(s: seq<T>, a: nat, b: nat)
    requires a <= b <= |s|
    ensures s[a..][..b - a] == s[a..b] && s[a..][b - a..] == s[b..]
  {
  }

  /** A sequence is the concatenation of its three slices at `a` and `b`. */
  lemma SliceSplit<T>(s: seq<T>, a: nat, b: nat)
    requires a <= b <= |s|
    ensures s == s[..a] + s[a..b] + s[b..]
  {
  }

  lemma AllSpaceConcat(a: string, b: string)
    requires AllSpace(a) && AllSpace(b)
    ensures AllSpace(a + b)
  {
    forall i | 0 <= i < |a + b| ensures IsSpace((a + b)[i]) {
      if i < |a| { assert (a + b)[i] == a[i]; } else { assert (a + b)[i] == b[i - |a|]; }
    }
  }

  lemma Regroup5<T>(w1: seq<T>, p: seq<T>, r: seq<T>, q: seq<T>, w2: seq<T>)
    ensures w1 + (p + r + q) + w2 == (w1 + p) + r + (q + w2)
  {
  }

  /** Surrounding whitespace never changes what `Strip` returns. */
  lemma StripIgnoresPadding(w1: string, s: string, w2: string)
    requires AllSpace(w1) && AllSpace(w2)
    ensures Strip(w1 + s + w2) == Strip(s)
  {
    var a, b := StripSplits(s);
    var p, q, r := s[..a], s[b..], Strip(s);
    AllSpaceConcat(w1, p);
    AllSpaceConcat(q, w2);
    Regroup5(w1, p, r, q, w2);
    StripOfPadded(w1 + p, s, q + w2);
  }

  /** A string with no whitespace at either end is its own strip. */
  lemma StripOfUnpadded(s: string)
    requires s != [] && !IsSpace(s[0]) && !IsSpace(s[|s| - 1])
    ensures Strip(s) == s
  {
  }

  /** Stripping is idempotent. */
  lemma StripIdempotent(s: string)
    ensures Strip(Strip(s)) == Strip(s)
  {
    StripOfPadded([], s, []);
    assert [] + Strip(s) + [] == Strip(s);
  }

  function LowerChar(c: char): char {
    if IsUpperLetter(c) then (c as int + 32) as char else c
  }

  function UpperChar(c: char): char {
    if IsLowerLetter(c) then (c as int - 32) as char else c
  }

  /** Python's `s.lower()` on ASCII. */
  function Lower(s: string): (r: string)
    ensures |r| == |s|
    ensures forall i :: 0 <= i < |s| ==> r[i] == LowerChar(s[i])
  {
    seq(|s|, i requires 0 <= i < |s| => LowerChar(s[i]))
  }

  /** Python's `s.upper()` on ASCII. */
  function Upper(s: string): (r: string)
    ensures |r| == |s|
    ensures forall i :: 0 <= i < |s| ==> r[i] == UpperChar(s[i])
  {
    seq(|s|, i requires 0 <= i < |s| => UpperChar(s[i]))
  }

  /** Lower-casing maps whitespace to whitespace and nothing else to it, so
      it commutes with stripping. */
  lemma LowerStripCommute(s: string)
    ensures Lower(Strip(s)) == Strip(Lower(s))
  {
    var a := LeadingSpaces(s);
    var n := TrailingSpaces(s[a..]);
    StripCut(s, a, n);
    StripOfLower(s, a, n);
    LowerCut(s, a, |s| - a - n);
  }

  lemma LowerCut(s: string, a: nat, m: nat)
    requires a + m <= |s|
    ensures Lower(s[a..][..m]) == Lower(s)[a..][..m]
  {
    LowerDrop(s, a);
    LowerTake(s[a..], m);
  }

  lemma LowerDrop(s: string, a: nat)
    requires a <= |s|
    ensures Lower(s[a..]) == Lower(s)[a..]
  {
  }

  lemma LowerTake(s: string, b: nat)
    requires b <= |s|
    ensures Lower(s[..b]) == Lower(s)[..b]
  {
  }

  /** `Strip(Lower(s))` cuts `Lower(s)` where `Strip(s)` cuts `s`. */
  lemma StripOfLower(s: string, a: nat, n: nat)
    requires a == LeadingSpaces(s) && n == TrailingSpaces(s[a..])
    ensures a + n <= |s| && Strip(Lower(s)) == Lower(s)[a..][..|s| - a - n]
  {
    LeadingLower(s);
    TrailingLowerDrop(s, a);
    StripCut(Lower(s), a, n);
  }

  lemma TrailingLowerDrop(s: string, a: nat)
    requires a <= |s|
    ensures TrailingSpaces(Lower(s)[a..]) == TrailingSpaces(s[a..])
  {
    LowerDrop(s, a);
    TrailingLower(s[a..]);
  }

  /** `Strip` spelled out once its two cut points are known. */
  lemma StripCut(x: string, a: nat, n: nat)
    requires a == LeadingSpaces(x) && n == TrailingSpaces(x[a..])
    ensures a + n <= |x| && Strip(x) == x[a..][..|x| - a - n]
  {
  }

  lemma {:induction false} LeadingLower(s: string)
    ensures LeadingSpaces(Lower(s)) == LeadingSpaces(s)
  {
    if |s| > 0 {
      assert Lower(s)[1..] == Lower(s[1..]);
      LeadingLower(s[1..]);
    }
  }

  lemma {:induction false} TrailingLower(s: string)
    ensures TrailingSpaces(Lower(s)) == TrailingSpaces(s)
  {
    if |s| > 0 {
      var l := Lower(s);
      var p := s[..|s| - 1];
      assert l[..|l| - 1] == Lower(p);
      assert IsSpace(l[|l| - 1]) == IsSpace(s[|s| - 1]);
      TrailingLower(p);
    }
  }

  /** Text without upper-case letters is its own lower case. */
  lemma LowerOfLowerCase(s: string)
    requires forall i :: 0 <= i < |s| ==> !IsUpperLetter(s[i])
    ensures Lower(s) == s
  {
  }

  /** Upper-casing then lower-casing loses nothing that lower-casing keeps. */
  lemma LowerOfUpper(s: string)
    ensures Lower(Upper(s)) == Lower(s)
  {
  }

  function DigitChar(d: nat): (c: char)
    requires d < 10
    ensures IsDigit(c)
  {
    ('0' as int + d) as char
  }

  function DigitValue(c: char): (d: nat)
    requires IsDigit(c)
    ensures d < 10 && DigitChar(d) == c
  {
    c as int - '0' as int
  }

  predicate AllDigits(s: string) {
    forall i :: 0 <= i < |s| ==> IsDigit(s[i])
  }

  /** The decimal digits of `n`, most significant first, without leading
      zeros: Python's `str(n)` for `n >= 0`. */
  function NatDigits(n: nat): (r: string)
    ensures r != [] && AllDigits(r)
    ensures |r| > 1 ==> r[0] != '0'
  {
    if n < 10 then [DigitChar(n)] else NatDigits(n / 10) + [DigitChar(n % 10)]
  }

  /** The number a string of decimal digits denotes (leading zeros allowed). */
  function DigitsValue(s: string): (v: nat)
    requires AllDigits(s)
  {
    if s == [] then 0 else DigitsValue(s[..|s| - 1]) * 10 + DigitValue(s[|s| - 1])
  }

  /** Python's `str(n)`: an optional minus sign followed by `NatDigits`. */
  function Decimal(n: int): (r: string)
    ensures r != []
    ensures n >= 0 <==> IsDigit(r[0])
  {
    if n < 0 then "-" + NatDigits(-n) else NatDigits(n)
  }

  /** Reading back the digits `NatDigits` writes gives the number again. */
  lemma {:induction false} NatDigitsRoundTrip(n: nat)
    ensures DigitsValue(NatDigits(n)) == n
  {
    if n >= 10 {
      var s := NatDigits(n);
      assert s[..|s| - 1] == NatDigits(n / 10);
      NatDigitsRoundTrip(n / 10);
    }
  }

  /** No rendering of a number contains whitespace. */
  lemma DecimalHasNoSpace(n: int)
    ensures !IsSpace(Decimal(n)[0]) && !IsSpace(Decimal(n)[|Decimal(n)| - 1])
    ensures Strip(Decimal(n)) == Decimal(n)
  {
    var r := Decimal(n);
    var d := NatDigits(if n < 0 then -n else n);
    assert r[|r| - 1] == d[|d| - 1];
    assert LeadingSpaces(r) == 0;
    assert TrailingSpaces(r) == 0;
  }
}
