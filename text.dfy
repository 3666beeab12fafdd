/**
 * Character classes and the String methods the pipeline relies on: `upcase`,
 * `downcase`, `capitalize` and `Integer#to_s` for the numbers it injects.
 * Words come from a dictionary filtered to /^[a-zA-Z]+$/, so case mapping is
 * that of ASCII letters; every other character is left as it is.
 */
module Text {

  predicate IsLower(c: char) { 'a' <= c <= 'z' }
  predicate IsUpper(c: char) { 'A' <= c <= 'Z' }
  predicate IsDigit(c: char) { '0' <= c <= '9' }
  predicate IsLetter(c: char) { IsLower(c) || IsUpper(c) }
  /** The vowel class `[AEIOUaeiou]` of the syllable splitter. */
  predicate IsVowel(c: char) { c in "AEIOUaeiou" }

  predicate AllLetters(w: string) { forall i :: 0 <= i < |w| ==> IsLetter(w[i]) }
  predicate AllDigits(w: string) { forall i :: 0 <= i < |w| ==> IsDigit(w[i]) }
  predicate HasVowel(w: string) { exists i :: 0 <= i < |w| && IsVowel(w[i]) }

  function UpperChar(c: char): (r: char)
    ensures IsLower(c) ==> IsUpper(r)
    ensures !IsLower(c) ==> r == c
  {
    if IsLower(c) then (c as int - 'a' as int + 'A' as int) as char else c
  }

  function LowerChar(c: char): (r: char)
    ensures IsUpper(c) ==> IsLower(r)
    ensures !IsUpper(c) ==> r == c
  {
    if IsUpper(c) then (c as int - 'A' as int + 'a' as int) as char else c
  }

  /** Two strings that differ at most in the case of their letters. */
  predicate SameIgnoringCase(a: string, b: string)
  {
    |a| == |b| && forall i :: 0 <= i < |a| ==> LowerChar(a[i]) == LowerChar(b[i])
  }

  /** `String#upcase`. */
  function Upcase(w: string): (r: string)
    ensures SameIgnoringCase(r, w)
    ensures forall i :: 0 <= i < |r| ==> !IsLower(r[i])
  {
    seq(|w|, i requires 0 <= i < |w| => UpperChar(w[i]))
  }

  /** `String#downcase`. */
  function Downcase(w: string): (r: string)
    ensures SameIgnoringCase(r, w)
    ensures forall i :: 0 <= i < |r| ==> !IsUpper(r[i])
  {
    seq(|w|, i requires 0 <= i < |w| => LowerChar(w[i]))
  }

  /** `String#capitalize`: the first character upper case, the rest lower case. */
  function Capitalize(w: string): (r: string)
    ensures SameIgnoringCase(r, w)
    ensures |r| > 0 ==> !IsLower(r[0])
    ensures forall i :: 1 <= i < |r| ==> !IsUpper(r[i])
  {
    if w == [] then [] else Upcase(w[..1]) + Downcase(w[1..])
  }

  /** Each of the three mappings is fully determined by its contract: a string equal to `w` up to case with no lower-case letter is `Upcase(w)`. */
  lemma UpcaseUnique(w: string, r: string)
    requires SameIgnoringCase(r, w) && forall i :: 0 <= i < |r| ==> !IsLower(r[i])
    ensures r == Upcase(w)
  {
    forall i | 0 <= i < |r| ensures r[i] == Upcase(w)[i] {
      assert LowerChar(r[i]) == LowerChar(w[i]);
    }
  }

  lemma CaseExamples()
    ensures Upcase("ThiS") == "THIS"
    ensures Downcase("ThiS") == "this"
    ensures Capitalize("ThiS") == "This"
  {
    assert Upcase("ThiS")[1] == 'H';
    assert Capitalize("ThiS") == Upcase("T") + Downcase("hiS");
  }

  function DigitChar(d: nat): (c: char)
    requires d < 10
    ensures IsDigit(c)
  {
    ('0' as int + d) as char
  }

  /** `Integer#to_s` for the values `random(100)` yields. */
  function NumberString(v: nat): (r: string)
    requires v < 100
    ensures AllDigits(r) && 1 <= |r| <= 2
    ensures |r| == 2 ==> r[0] != '0'
  {
    if v < 10 then [DigitChar(v)] else [DigitChar(v / 10), DigitChar(v % 10)]
  }

  /** Reading a string of decimal digits back as a number. */
  function DecimalValue(s: string): nat
    requires AllDigits(s)
  {
    if s == [] then 0 else DecimalValue(s[..|s| - 1]) * 10 + (s[|s| - 1] as int - '0' as int)
  }

  /** `NumberString` is the decimal form of its argument: reading it back gives the number. */
  lemma NumberStringRoundTrip(v: nat)
    requires v < 100
    ensures DecimalValue(NumberString(v)) == v
  {
    var s := NumberString(v);
    if v >= 10 {
      assert s[..1] == [DigitChar(v / 10)];
      assert DecimalValue(s[..1]) == v / 10;
    }
  }
}
