/** The string operations the pages rely on: `toLowerCase`/`toUpperCase`
    (ASCII letters only), `includes`, and the decimal rendering JavaScript
    uses when a number is placed in a template string. */
module Text {

  function LowerChar(c: char): char
  {
    if 'A' <= c <= 'Z' then (c as int + 32) as char else c
  }

  function UpperChar(c: char): char
  {
    if 'a' <= c <= 'z' then (c as int - 32) as char else c
  }

  /** `s.toLowerCase()`: maps every character, keeps the length. */
  function Lower(s: string): (r: string)
    ensures |r| == |s|
    ensures forall i :: 0 <= i < |s| ==> r[i] == LowerChar(s[i])
  {
    if s == [] then [] else [LowerChar(s[0])] + Lower(s[1..])
  }

  /** `s.toUpperCase()`: maps every character, keeps the length. */
  function Upper(s: string): (r: string)
    ensures |r| == |s|
    ensures forall i :: 0 <= i < |s| ==> r[i] == UpperChar(s[i])
  {
    if s == [] then [] else [UpperChar(s[0])] + Upper(s[1..])
  }

  /** No character of `s` changes when upper-cased. */
  predicate IsUpper(s: string)
  {
    forall i :: 0 <= i < |s| ==> UpperChar(s[i]) == s[i]
  }

  lemma UpperIsUpper(s: string)
    ensures IsUpper(Upper(s))
  {
  }

  /** Lower-casing twice is lower-casing once. */
  lemma LowerIdempotent(s: string)
    ensures Lower(Lower(s)) == Lower(s)
  {
  }

  /** Lower-casing forgets any earlier upper-casing. */
  lemma LowerOfUpper(s: string)
    ensures Lower(Upper(s)) == Lower(s)
  {
    assert forall i :: 0 <= i < |s| ==> Lower(Upper(s))[i] == Lower(s)[i];
  }

  /** Upper-casing an already upper-case string changes nothing. */
  lemma UpperFixesUpper(s: string)
    requires IsUpper(s)
    ensures Upper(s) == s
  {
  }

  /** `needle` occurs in `hay` starting at index `i`. */
  predicate OccursAt(hay: string, needle: string, i: int)
  {
    0 <= i && i + |needle| <= |hay| && hay[i..i + |needle|] == needle
  }

  /** An occurrence at `i >= 1` is an occurrence at `i - 1` of the tail. */
  lemma OccursInTail(hay: string, needle: string)
    requires hay != []
    ensures forall i :: 1 <= i ==> (OccursAt(hay, needle, i) <==> OccursAt(hay[1..], needle, i - 1))
  {
    forall i | 1 <= i
      ensures OccursAt(hay, needle, i) <==> OccursAt(hay[1..], needle, i - 1)
    {
      if i + |needle| <= |hay| {
        assert hay[1..][i - 1..i - 1 + |needle|] == hay[i..i + |needle|];
      }
    }
  }

  /** `hay.includes(needle)`: true exactly when `needle` occurs somewhere in `hay`. */
  function Contains(hay: string, needle: string): (b: bool)
    ensures b <==> exists i :: OccursAt(hay, needle, i)
    decreases |hay|
  {
    if |needle| > |hay| then
      assert forall i :: !OccursAt(hay, needle, i);
      false
    else if hay[..|needle|] == needle then
      assert OccursAt(hay, needle, 0);
      true
    else
      OccursInTail(hay, needle);
      assert !OccursAt(hay, needle, 0);
      var r := Contains(hay[1..], needle);
      assert r ==> exists i :: OccursAt(hay, needle, i) by {
        if r {
          var j :| OccursAt(hay[1..], needle, j);
          assert OccursAt(hay, needle, j + 1);
        }
      }
      r
  }

  /** A needle with a character the haystack lacks is not included. */
  lemma AbsentCharNotContained(hay: string, needle: string, k: nat)
    requires k < |needle| && needle[k] !in hay
    ensures !Contains(hay, needle)
  {
    assert forall i :: OccursAt(hay, needle, i) ==> hay[i..i + |needle|][k] == hay[i + k];
  }

  /** Every string includes the empty string. */
  lemma ContainsEmpty(s: string)
    ensures Contains(s, "")
  {
    assert OccursAt(s, "", 0);
  }

  /** Every string includes itself. */
  lemma ContainsSelf(s: string)
    ensures Contains(s, s)
  {
    assert OccursAt(s, s, 0);
  }

  // ----- Decimal rendering of numbers -----

  predicate IsDigit(c: char)
  {
    '0' <= c <= '9'
  }

  function DigitChar(d: nat): (c: char)
    requires d < 10
    ensures IsDigit(c)
  {
    (48 + d) as char
  }

  function DigitValue(c: char): nat
    requires IsDigit(c)
  {
    c as int - 48
  }

  /** `String(n)` for a non-negative integer: its decimal digits, most
      significant first, with no leading zero. */
  function NatToString(n: nat): (s: string)
    ensures s != []
    ensures forall i :: 0 <= i < |s| ==> IsDigit(s[i])
    ensures |s| > 1 ==> s[0] != '0'
  {
    if n < 10 then [DigitChar(n)] else NatToString(n / 10) + [DigitChar(n % 10)]
  }

  /** Reading decimal digits back into a number. */
  function ParseDigits(s: string): nat
    requires forall i :: 0 <= i < |s| ==> IsDigit(s[i])
  {
    if s == [] then 0 else ParseDigits(s[..|s| - 1]) * 10 + DigitValue(s[|s| - 1])
  }

  /** The rendering loses nothing: parsing it gives the number back. */
  lemma {:induction false} NatToStringRoundTrip(n: nat)
    ensures ParseDigits(NatToString(n)) == n
  {
    var s := NatToString(n);
    if n >= 10 {
      NatToStringRoundTrip(n / 10);
      assert s[..|s| - 1] == NatToString(n / 10);
    }
  }

  /** Distinct numbers render as distinct strings. */
  lemma NatToStringInjective(a: nat, b: nat)
    ensures NatToString(a) == NatToString(b) ==> a == b
  {
    if NatToString(a) == NatToString(b) {
      NatToStringRoundTrip(a);
      NatToStringRoundTrip(b);
    }
  }

  /** `String(k)` for any integer: a leading '-' for negative numbers. */
  function IntToString(k: int): (s: string)
    ensures s != [] && (s[0] == '-' <==> k < 0)
    ensures k < 0 ==> |s| > 1 && forall i :: 1 <= i < |s| ==> IsDigit(s[i])
    ensures k >= 0 ==> forall i :: 0 <= i < |s| ==> IsDigit(s[i])
    ensures k >= 0 ==> ParseDigits(s) == k
    ensures k < 0 ==> ParseDigits(s[1..]) == -k
  {
    if k < 0 then
      NatToStringRoundTrip(-k);
      "-" + NatToString(-k)
    else
      NatToStringRoundTrip(k);
      NatToString(k)
  }

  /** Distinct integers render as distinct strings. */
  lemma IntToStringInjective(a: int, b: int)
    ensures IntToString(a) == IntToString(b) ==> a == b
  {
    if IntToString(a) == IntToString(b) {
      if a < 0 && b < 0 {
        assert NatToString(-a) == IntToString(a)[1..];
        NatToStringInjective(-a, -b);
      } else if a >= 0 && b >= 0 {
        NatToStringInjective(a, b);
      }
    }
  }
}
