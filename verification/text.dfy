/**
 * ASCII text helpers: the character classes and the case mappings that
 * Python's `str.lower` and `str.title` apply to ASCII input.
 */
module Text {

  predicate IsUpper(c: char) { 'A' <= c <= 'Z' }

  predicate IsLower(c: char) { 'a' <= c <= 'z' }

  /** A cased character: on ASCII, exactly the letters. */
  predicate IsLetter(c: char) { IsUpper(c) || IsLower(c) }

  /** `c.upper()` on ASCII. */
  function Upper(c: char): (u: char)
    ensures IsLetter(u) <==> IsLetter(c)
    ensures !IsLower(u)
    ensures !IsLetter(c) ==> u == c
  {
    if IsLower(c) then (c as int - 32) as char else c
  }

  /** `c.lower()` on ASCII. */
  function Lower(c: char): (l: char)
    ensures IsLetter(l) <==> IsLetter(c)
    ensures !IsUpper(l)
    ensures !IsLetter(c) ==> l == c
  {
    if IsUpper(c) then (c as int + 32) as char else c
  }

  /** `s.lower()` on ASCII. */
  function LowerString(s: string): (t: string)
    ensures |t| == |s|
    ensures forall i :: 0 <= i < |s| ==> t[i] == Lower(s[i])
  {
    seq(|s|, i requires 0 <= i < |s| => Lower(s[i]))
  }

  /** `t` occurs in `s` as a contiguous piece (Python's `t in s`). */
  ghost predicate IsInfix(t: string, s: string) {
    exists i, j :: 0 <= i <= j <= |s| && s[i..j] == t
  }

  /** One character of a title-cased string, given whether the character before it was cased. */
  function Titled(c: char, previousCased: bool): char {
    if !IsLetter(c) then c
    else if previousCased then Lower(c)
    else Upper(c)
  }

  /**
   * Reference reading of `str.title` on ASCII: a letter is upper-cased exactly
   * when it starts a run of letters and lower-cased inside one; every other
   * character is kept.
   */
  function TitledAt(s: string, i: nat): char
    requires i < |s|
  {
    Titled(s[i], i > 0 && IsLetter(s[i - 1]))
  }

  /** `str.title` as the left-to-right scan that remembers whether the previous character was cased. */
  function TitleScan(s: string, previousCased: bool): (t: string)
    ensures |t| == |s|
  {
    if s == [] then []
    else [Titled(s[0], previousCased)] + TitleScan(s[1..], IsLetter(s[0]))
  }

  /** The scan title-cases each position by the character before it (or by the start state at 0). */
  lemma {:induction false} TitleScanPositions(s: string, previousCased: bool)
    ensures forall i :: 0 <= i < |s| ==>
      TitleScan(s, previousCased)[i] == Titled(s[i], if i == 0 then previousCased else IsLetter(s[i - 1]))
  {
    if s != [] {
      TitleScanPositions(s[1..], IsLetter(s[0]));
      var t := TitleScan(s, previousCased);
      assert t == [Titled(s[0], previousCased)] + TitleScan(s[1..], IsLetter(s[0]));
      forall i | 0 < i < |s|
        ensures t[i] == Titled(s[i], IsLetter(s[i - 1]))
      {
        assert t[i] == TitleScan(s[1..], IsLetter(s[0]))[i - 1];
        if i > 1 {
          assert s[1..][i - 2] == s[i - 1];
        }
      }
    }
  }

  /** `s.title()` on ASCII: the scan, which agrees with the positional reading everywhere. */
  function TitleCase(s: string): (t: string)
    ensures |t| == |s|
    ensures forall i :: 0 <= i < |s| ==> t[i] == TitledAt(s, i)
  {
    TitleScanPositions(s, false);
    TitleScan(s, false)
  }

  /** Title-casing an already title-cased string changes nothing. */
  lemma TitleCaseIdempotent(s: string)
    ensures TitleCase(TitleCase(s)) == TitleCase(s)
  {
  }

  /** Title case changes only letter case: lower-casing both sides gives the same text. */
  lemma TitleCaseKeepsLetters(s: string)
    ensures LowerString(TitleCase(s)) == LowerString(s)
  {
  }

  /** The provider phrase "light rain" becomes "Light Rain". */
  lemma TitleCaseExample()
    ensures TitleCase("light rain") == "Light Rain"
  {
  }
}
