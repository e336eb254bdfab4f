/**
 * The few Python 2 string builtins the client relies on, over ASCII:
 * `str.title()` (used to turn a tag name into a class name), `str(int)`
 * (used for the handshake timestamp and when printing error codes).
 * Python 2 `str` values are byte strings; under the C locale only the
 * ASCII letters are cased, which is what is modelled here.
 */
module Strings {

  predicate IsUpper(c: char) { 'A' <= c <= 'Z' }

  predicate IsLower(c: char) { 'a' <= c <= 'z' }

  predicate IsLetter(c: char) { IsUpper(c) || IsLower(c) }

  function ToUpper(c: char): char
  {
    if IsLower(c) then (c as int - 32) as char else c
  }

  function ToLower(c: char): char
  {
    if IsUpper(c) then (c as int + 32) as char else c
  }

  /** `s.lower()` */
  function Lower(s: string): string
  {
    if s == [] then [] else [ToLower(s[0])] + Lower(s[1..])
  }

  /**
   * `s.title()` with the "previous character was cased" flag made explicit:
   * a letter that follows a letter is lowered, any other letter is raised,
   * every other character is copied and clears the flag.
   */
  function TitleFrom(s: string, previousIsCased: bool): (t: string)
    ensures |t| == |s|
    ensures forall i :: 0 <= i < |s| ==> (IsLetter(t[i]) <==> IsLetter(s[i]))
    ensures forall i :: 0 <= i < |s| && !IsLetter(s[i]) ==> t[i] == s[i]
  {
    if s == [] then []
    else if IsLetter(s[0]) then
      [if previousIsCased then ToLower(s[0]) else ToUpper(s[0])] + TitleFrom(s[1..], true)
    else
      [s[0]] + TitleFrom(s[1..], false)
  }

  /** Python 2 `s.title()` */
  function Title(s: string): (t: string)
    ensures |t| == |s|
    ensures forall i :: 0 <= i < |s| ==> (IsLetter(t[i]) <==> IsLetter(s[i]))
    ensures forall i :: 0 <= i < |s| && !IsLetter(s[i]) ==> t[i] == s[i]
    ensures |s| > 0 && IsLetter(s[0]) ==> IsUpper(t[0])
  {
    TitleFrom(s, false)
  }

  /** An upper-case letter followed by lower-case letters, such as a class name `Song`. */
  predicate IsCapitalisedWord(w: string)
  {
    |w| > 0 && IsUpper(w[0]) && forall i :: 1 <= i < |w| ==> IsLower(w[i])
  }

  /** After a letter, title-casing yields a run of lower-case letters exactly when lower-casing does. */
  lemma {:induction false} TitleAfterLetter(s: string, v: string)
    requires forall i :: 0 <= i < |v| ==> IsLower(v[i])
    ensures TitleFrom(s, true) == v <==> Lower(s) == v
  {
    if s != [] && v != [] {
      TitleAfterLetter(s[1..], v[1..]);
      if IsLetter(s[0]) {
        assert TitleFrom(s, true) == [ToLower(s[0])] + TitleFrom(s[1..], true);
      } else {
        assert TitleFrom(s, true)[0] == s[0];
      }
      assert Lower(s) == [ToLower(s[0])] + Lower(s[1..]);
    }
  }

  /**
   * `s.title() == w` for a capitalised word `w` holds exactly when `s`
   * spells `w` ignoring case: the class-name lookup is case-insensitive.
   */
  lemma {:induction false} TitleMatchesWord(s: string, w: string)
    requires IsCapitalisedWord(w)
    ensures Title(s) == w <==> Lower(s) == Lower(w)
  {
    assert Lower(w) == [ToLower(w[0])] + Lower(w[1..]);
    LowerOfLowers(w[1..]);
    if s != [] {
      TitleAfterLetter(s[1..], w[1..]);
      assert Lower(s) == [ToLower(s[0])] + Lower(s[1..]);
      if IsLetter(s[0]) {
        assert Title(s) == [ToUpper(s[0])] + TitleFrom(s[1..], true);
        assert ToUpper(s[0]) == w[0] <==> ToLower(s[0]) == ToLower(w[0]);
        assert Title(s) == w <==> ToUpper(s[0]) == w[0] && TitleFrom(s[1..], true) == w[1..];
        assert Lower(s)[1..] == Lower(s[1..]) && Lower(w)[1..] == w[1..];
        assert Lower(s) == Lower(w) <==> ToLower(s[0]) == ToLower(w[0]) && Lower(s[1..]) == w[1..];
      } else {
        assert Title(s)[0] == s[0];
      }
    }
  }

  /** Lower-casing a capitalised word lowers its first letter only. */
  lemma LowerOfCapitalised(w: string)
    requires IsCapitalisedWord(w)
    ensures Lower(w) == [ToLower(w[0])] + w[1..]
  {
    LowerOfLowers(w[1..]);
  }

  lemma {:induction false} LowerOfLowers(v: string)
    requires forall i :: 0 <= i < |v| ==> IsLower(v[i])
    ensures Lower(v) == v
  {
    if v != [] {
      LowerOfLowers(v[1..]);
    }
  }

  predicate IsDigit(c: char) { '0' <= c <= '9' }

  function DigitChar(d: nat): (c: char)
    requires d < 10
    ensures IsDigit(c) && c as int - '0' as int == d
  {
    ('0' as int + d) as char
  }

  /** `str(n)` for a non-negative integer: its decimal digits, most significant first. */
  function Decimal(n: nat): (s: string)
    ensures |s| > 0
    ensures forall i :: 0 <= i < |s| ==> IsDigit(s[i])
    ensures n >= 10 ==> s[0] != '0'
  {
    if n < 10 then [DigitChar(n)] else Decimal(n / 10) + [DigitChar(n % 10)]
  }

  function DigitValue(c: char): nat
    requires IsDigit(c)
  {
    c as int - '0' as int
  }

  /** `int(s)` for a string of decimal digits (the reading of a decimal string). */
  function ParseDecimal(s: string): nat
    requires forall i :: 0 <= i < |s| ==> IsDigit(s[i])
  {
    if s == [] then 0
    else ParseDecimal(s[..|s| - 1]) * 10 + DigitValue(s[|s| - 1])
  }

  /** `int(str(n)) == n`: the decimal rendering loses nothing. */
  lemma {:induction false} DecimalRoundTrip(n: nat)
    ensures ParseDecimal(Decimal(n)) == n
  {
    if n >= 10 {
      DecimalRoundTrip(n / 10);
      var s := Decimal(n);
      assert s[..|s| - 1] == Decimal(n / 10);
    }
  }
}
