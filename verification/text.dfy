/** Strings as sequences of characters: lower-casing, the substring test
    behind JavaScript's `String.prototype.includes`, and decimal rendering
    of a count as it appears in the user interface. */
module Text {

  // ---------------------------------------------------------------------
  // Lower-casing
  // ---------------------------------------------------------------------

  predicate IsUpperChar(c: char) {
    'A' <= c <= 'Z'
  }

  /** A string that lower-casing leaves unchanged has no upper-case letter. */
  predicate IsLowerCase(s: string) {
    forall i :: 0 <= i < |s| ==> !IsUpperChar(s[i])
  }

  /** Lower-cases one character. Only the ASCII letters are mapped; every
      other character is its own lower case. */
  function ToLowerChar(c: char): (r: char)
    ensures !IsUpperChar(r)
    ensures IsUpperChar(c) ==> 'a' <= r <= 'z' && r != c
    ensures !IsUpperChar(c) ==> r == c
  {
    if IsUpperChar(c) then (c as int + 32) as char else c
  }

  /** `String.prototype.toLowerCase`, character by character. */
  function ToLower(s: string): (r: string)
    ensures |r| == |s|
    ensures forall i :: 0 <= i < |s| ==> r[i] == ToLowerChar(s[i])
    ensures IsLowerCase(r)
    ensures IsLowerCase(s) ==> r == s
  {
    seq(|s|, i requires 0 <= i < |s| => ToLowerChar(s[i]))
  }

  /** Lower-casing commutes with taking a suffix. */
  lemma ToLowerSuffix(s: string, i: nat)
    requires i <= |s|
    ensures ToLower(s)[i..] == ToLower(s[i..])
  {
  }

  /** Lower-casing preserves the prefix relation. */
  lemma ToLowerPrefix(p: string, s: string)
    requires p <= s
    ensures ToLower(p) <= ToLower(s)
  {
    assert forall i :: 0 <= i < |p| ==> ToLower(p)[i] == ToLower(s)[i] by {
      forall i | 0 <= i < |p|
        ensures ToLower(p)[i] == ToLower(s)[i]
      {
        assert p[i] == s[i];
      }
    }
  }

  // ---------------------------------------------------------------------
  // Substring
  // ---------------------------------------------------------------------

  /** `needle` occurs in `hay` at some position. */
  ghost predicate IsSubstring(needle: string, hay: string) {
    exists i :: 0 <= i <= |hay| && needle <= hay[i..]
  }

  /** Moving the search window one character to the right. */
  lemma SubstringStep(needle: string, hay: string)
    requires |hay| > 0
    requires !(needle <= hay)
    ensures IsSubstring(needle, hay) <==> IsSubstring(needle, hay[1..])
  {
    if IsSubstring(needle, hay) {
      var i :| 0 <= i <= |hay| && needle <= hay[i..];
      assert hay[0..] == hay;
      assert i != 0;
      assert hay[1..][i - 1..] == hay[i..];
    }
    if IsSubstring(needle, hay[1..]) {
      var j :| 0 <= j <= |hay[1..]| && needle <= hay[1..][j..];
      assert hay[1..][j..] == hay[j + 1..];
    }
  }

  /** `hay.includes(needle)`: scans the start positions left to right. */
  function Includes(hay: string, needle: string): (r: bool)
    ensures r <==> IsSubstring(needle, hay)
    decreases |hay|
  {
    if needle <= hay then
      assert hay[0..] == hay;
      true
    else if |hay| == 0 then
      false
    else
      SubstringStep(needle, hay);
      Includes(hay[1..], needle)
  }

  /** A case-exact occurrence is also a case-insensitive one: the search
      never misses a query that is typed exactly as the text reads. */
  lemma {:induction false} SubstringSurvivesLowering(needle: string, hay: string)
    requires IsSubstring(needle, hay)
    ensures IsSubstring(ToLower(needle), ToLower(hay))
  {
    var i :| 0 <= i <= |hay| && needle <= hay[i..];
    ToLowerPrefix(needle, hay[i..]);
    ToLowerSuffix(hay, i);
    assert ToLower(needle) <= ToLower(hay)[i..];
  }

  // ---------------------------------------------------------------------
  // Decimal rendering of counts
  // ---------------------------------------------------------------------

  predicate IsDigit(c: char) {
    '0' <= c <= '9'
  }

  predicate IsDecimal(s: string) {
    forall i :: 0 <= i < |s| ==> IsDigit(s[i])
  }

  function DigitChar(d: nat): (c: char)
    requires d < 10
    ensures IsDigit(c) && c as int - '0' as int == d
  {
    ('0' as int + d) as char
  }

  /** The number a string of decimal digits denotes. */
  function DecimalValue(s: string): nat
    requires IsDecimal(s)
    decreases |s|
  {
    if s == [] then 0
    else DecimalValue(s[..|s| - 1]) * 10 + (s[|s| - 1] as int - '0' as int)
  }

  /** How JavaScript renders a non-negative integer inside JSX text: the
      shortest decimal numeral, so the digits read back as `n` and there is
      no leading zero. */
  function NatToDecimal(n: nat): (r: string)
    ensures |r| >= 1 && IsDecimal(r)
    ensures DecimalValue(r) == n
    ensures |r| > 1 ==> r[0] != '0'
    decreases n
  {
    if n < 10 then
      [DigitChar(n)]
    else
      var p := NatToDecimal(n / 10);
      var r := p + [DigitChar(n % 10)];
      assert r[..|r| - 1] == p;
      r
  }
}
