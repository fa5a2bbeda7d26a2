/**
 * String helpers shared by the models: the ASCII part of lower-casing,
 * substring search (`includes` in TypeScript, `in` in Python), whitespace
 * stripping, decimal rendering of integers and left-to-right removal of a
 * pattern (`str.replace(pat, '')`).
 */
module Text {
  import opened Common

  predicate IsUpper(c: char) { 'A' <= c <= 'Z' }

  predicate IsDigit(c: char) { '0' <= c <= '9' }

  /** Python's `str.isspace` restricted to the Latin-1 range. */
  predicate IsSpace(c: char) {
    var k := c as int;
    k == 32 || (9 <= k <= 13) || (28 <= k <= 31) || k == 133 || k == 160
  }

  function LowerChar(c: char): (r: char)
    ensures !IsUpper(r)
    ensures !IsUpper(c) ==> r == c
  {
    if IsUpper(c) then (c as int + 32) as char else c
  }

  /** Lower-casing of ASCII letters; every other character is kept. */
  function Lower(s: string): (r: string)
    ensures |r| == |s|
    ensures forall i :: 0 <= i < |s| ==> r[i] == LowerChar(s[i])
  {
    if s == [] then [] else [LowerChar(s[0])] + Lower(s[1..])
  }

  lemma {:induction false} LowerIdempotent(s: string)
    ensures Lower(Lower(s)) == Lower(s)
  {
    if s != [] {
      LowerIdempotent(s[1..]);
      assert Lower(s)[1..] == Lower(s[1..]);
    }
  }

  /** A string without upper-case letters is its own lower-case form. */
  lemma {:induction false} LowerKeepsLowerCase(s: string)
    requires forall i :: 0 <= i < |s| ==> !IsUpper(s[i])
    ensures Lower(s) == s
  {
  }

  predicate StartsWith(s: string, p: string) {
    |p| <= |s| && s[..|p|] == p
  }

  /** `needle` occurs in `hay` as a contiguous substring. */
  predicate Contains(hay: string, needle: string)
    decreases |hay|
  {
    StartsWith(hay, needle) || (|hay| > 0 && Contains(hay[1..], needle))
  }

  /** `needle` sits in `hay` starting at index `i`. */
  predicate OccursAt(hay: string, needle: string, i: int) {
    0 <= i <= |hay| - |needle| && hay[i..i + |needle|] == needle
  }

  /** `Contains` agrees with the index-based definition of a substring. */
  lemma {:induction false} ContainsAt(hay: string, needle: string)
    ensures Contains(hay, needle) <==> exists i :: OccursAt(hay, needle, i)
    decreases |hay|
  {
    if StartsWith(hay, needle) {
      assert OccursAt(hay, needle, 0);
    }
    if |hay| > 0 {
      ContainsAt(hay[1..], needle);
      if Contains(hay[1..], needle) {
        var i :| OccursAt(hay[1..], needle, i);
        assert hay[i + 1..i + 1 + |needle|] == hay[1..][i..i + |needle|];
        assert OccursAt(hay, needle, i + 1);
      }
      if exists i :: OccursAt(hay, needle, i) {
        var i :| OccursAt(hay, needle, i);
        if i > 0 {
          assert hay[1..][i - 1..i - 1 + |needle|] == hay[i..i + |needle|];
          assert OccursAt(hay[1..], needle, i - 1);
        }
      }
    }
  }

  lemma EmptyIsContained(hay: string)
    ensures Contains(hay, "")
  {
  }

  lemma {:induction false} ContainsItself(s: string)
    ensures Contains(s, s)
  {
    assert s[..|s|] == s;
  }

  /** Strips leading and trailing whitespace, as `str.strip()` does. */
  function Strip(s: string): (r: string)
    ensures |r| <= |s|
    ensures r != [] ==> !IsSpace(r[0]) && !IsSpace(r[|r| - 1])
    ensures (forall i :: 0 <= i < |s| ==> IsSpace(s[i])) <==> r == []
  {
    StripRight(StripLeft(s))
  }

  function StripLeft(s: string): (r: string)
    ensures |r| <= |s| && r == s[|s| - |r|..]
    ensures r != [] ==> !IsSpace(r[0])
    ensures forall i :: 0 <= i < |s| - |r| ==> IsSpace(s[i])
  {
    if s != [] && IsSpace(s[0]) then StripLeft(s[1..]) else s
  }

  function StripRight(s: string): (r: string)
    ensures |r| <= |s| && r == s[..|r|]
    ensures r != [] ==> !IsSpace(r[|r| - 1])
    ensures forall i :: |r| <= i < |s| ==> IsSpace(s[i])
  {
    if s != [] && IsSpace(s[|s| - 1]) then StripRight(s[..|s| - 1]) else s
  }

  function DigitChar(d: nat): (c: char)
    requires d < 10
    ensures IsDigit(c)
  {
    ('0' as int + d) as char
  }

  function DigitValue(c: char): (d: nat)
    requires IsDigit(c)
    ensures d < 10 && DigitChar(d) == c
  {
    c as int - '0' as int
  }

  /** Decimal rendering of a natural number, without leading zeros. */
  function NatToString(n: nat): (r: string)
    ensures |r| > 0
    ensures forall i :: 0 <= i < |r| ==> IsDigit(r[i])
    ensures n >= 10 ==> r[0] != '0'
    decreases n
  {
    if n < 10 then [DigitChar(n)] else NatToString(n / 10) + [DigitChar(n % 10)]
  }

  /** Value of a string of decimal digits. */
  function DigitsValue(s: string): (n: nat)
    requires forall i :: 0 <= i < |s| ==> IsDigit(s[i])
  {
    if s == [] then 0 else DigitsValue(s[..|s| - 1]) * 10 + DigitValue(s[|s| - 1])
  }

  lemma {:induction false} NatToStringRoundTrip(n: nat)
    ensures DigitsValue(NatToString(n)) == n
    decreases n
  {
    var r := NatToString(n);
    if n >= 10 {
      NatToStringRoundTrip(n / 10);
      assert r[..|r| - 1] == NatToString(n / 10);
    }
  }

  /** `str(i)` in Python and `i.toString()` in TypeScript. */
  function IntToString(i: int): (r: string)
    ensures |r| > 0
    ensures i >= 0 ==> forall k :: 0 <= k < |r| ==> IsDigit(r[k])
    ensures i < 0 ==> r[0] == '-'
  {
    if i < 0 then "-" + NatToString(-i) else NatToString(i)
  }

  /**
   * How many copies of `pat` a left-to-right scan without overlaps finds:
   * at least one exactly when `s` contains `pat`.
   */
  function Occurrences(s: string, pat: string): (n: nat)
    requires pat != []
    ensures n > 0 <==> Contains(s, pat)
    decreases |s|
  {
    if s == [] then 0
    else if StartsWith(s, pat) then 1 + Occurrences(s[|pat|..], pat)
    else Occurrences(s[1..], pat)
  }

  lemma OneMoreCopy(whole: nat, rest: nat, left: nat, width: nat, k: nat)
    requires whole == width + rest && left == rest - width * k
    ensures left == whole - width * (1 + k)
  {
  }

  /**
   * Removes every occurrence of `pat`, scanning left to right without
   * overlaps, as `s.replace(pat, '')` does for a non-empty `pat`: what is
   * left is drawn from `s`, shorter by one copy of `pat` per occurrence,
   * and `s` comes back unchanged when it does not contain `pat`.
   */
  function RemoveAll(s: string, pat: string): (r: string)
    requires pat != []
    ensures |r| == |s| - |pat| * Occurrences(s, pat)
    ensures multiset(r) <= multiset(s)
    ensures !Contains(s, pat) ==> r == s
    decreases |s|
  {
    if s == [] then []
    else if StartsWith(s, pat) then
      var rest := s[|pat|..];
      var r := RemoveAll(rest, pat);
      assert multiset(s) == multiset(s[..|pat|]) + multiset(rest) by {
        assert s == s[..|pat|] + rest;
      }
      OneMoreCopy(|s|, |rest|, |r|, |pat|, Occurrences(rest, pat));
      r
    else
      var r := RemoveAll(s[1..], pat);
      assert s == [s[0]] + s[1..];
      [s[0]] + r
  }

  predicate FourDigitsAt(s: string, i: int) {
    0 <= i && i + 4 <= |s| && IsDigit(s[i]) && IsDigit(s[i + 1]) && IsDigit(s[i + 2]) && IsDigit(s[i + 3])
  }

  /**
   * The value of the leftmost run of four decimal digits, as
   * `re.search(r'(\d{4})', s)` followed by `int(match.group(1))`.
   */
  function FirstFourDigits(s: string): (r: Option<nat>)
    ensures r.Some? <==> exists i :: FourDigitsAt(s, i)
    ensures r.Some? ==> exists i :: FourDigitsAt(s, i) && (forall j :: 0 <= j < i ==> !FourDigitsAt(s, j))
                                 && r.value == DigitsValue(s[i..i + 4])
    decreases |s|
  {
    if |s| < 4 then None
    else if FourDigitsAt(s, 0) then Some(DigitsValue(s[..4]))
    else
      var rest := FirstFourDigits(s[1..]);
      assert forall i :: FourDigitsAt(s[1..], i) <==> FourDigitsAt(s, i + 1);
      if rest.Some? then
        var i :| FourDigitsAt(s[1..], i) && (forall j :: 0 <= j < i ==> !FourDigitsAt(s[1..], j))
                 && rest.value == DigitsValue(s[1..][i..i + 4]);
        assert s[1..][i..i + 4] == s[i + 1..i + 5];
        assert forall j :: 0 <= j < i + 1 ==> !FourDigitsAt(s, j) by {
          forall j | 0 <= j < i + 1 ensures !FourDigitsAt(s, j) {
            if j > 0 { assert !FourDigitsAt(s[1..], j - 1); }
          }
        }
        rest
      else
        assert forall i :: !FourDigitsAt(s, i) by {
          forall i ensures !FourDigitsAt(s, i) {
            if i > 0 { assert !FourDigitsAt(s[1..], i - 1); }
          }
        }
        rest
  }
}
