/**
 * The string operations the tag ranker relies on: Python's `str.strip()` and
 * `str.lower()` restricted to ASCII, and `int()` restricted to strings of
 * decimal digits, with the decimal rendering of a natural number as its inverse.
 */
module Text {
  import opened Wrappers

  /** The ASCII characters Python's `str.isspace()` accepts: space, \t \n \v \f \r and \x1c-\x1f. */
  predicate IsSpace(c: char) {
    var n := c as int;
    n == 32 || 9 <= n <= 13 || 28 <= n <= 31
  }

  predicate IsUpper(c: char) {
    'A' <= c <= 'Z'
  }

  /** Lower-cases one ASCII letter; every other character is left as it is. */
  function LowerChar(c: char): char {
    if IsUpper(c) then (c as int + 32) as char else c
  }

  /** Lower-casing leaves no upper-case letter, keeps whitespace and touches nothing else. */
  lemma LowerCharFacts(c: char)
    ensures !IsUpper(LowerChar(c))
    ensures IsSpace(LowerChar(c)) <==> IsSpace(c)
    ensures !IsUpper(c) ==> LowerChar(c) == c
    ensures IsUpper(c) ==> LowerChar(c) as int == c as int + 32
  {
  }

  /** The position of the first non-whitespace character of `s` at or after `k` (`|s|` if none). */
  function SkipSpaces(s: string, k: nat): (a: nat)
    requires k <= |s|
    ensures k <= a <= |s|
    decreases |s| - k
  {
    if k == |s| || !IsSpace(s[k]) then k else SkipSpaces(s, k + 1)
  }

  /** The end of `s[..e]` once the whitespace before `e` is dropped, stopping at `k`. */
  function SkipSpacesBack(s: string, k: nat, e: nat): (b: nat)
    requires k <= e <= |s|
    ensures k <= b <= e
  {
    if e == k || !IsSpace(s[e - 1]) then e else SkipSpacesBack(s, k, e - 1)
  }

  lemma {:induction false} SkipSpacesFacts(s: string, k: nat)
    requires k <= |s|
    ensures forall i :: k <= i < SkipSpaces(s, k) ==> IsSpace(s[i])
    ensures SkipSpaces(s, k) == |s| || !IsSpace(s[SkipSpaces(s, k)])
    decreases |s| - k
  {
    if k < |s| && IsSpace(s[k]) {
      SkipSpacesFacts(s, k + 1);
    }
  }

  lemma {:induction false} SkipSpacesBackFacts(s: string, k: nat, e: nat)
    requires k <= e <= |s|
    ensures forall i :: SkipSpacesBack(s, k, e) <= i < e ==> IsSpace(s[i])
    ensures SkipSpacesBack(s, k, e) == k || !IsSpace(s[SkipSpacesBack(s, k, e) - 1])
  {
    if e > k && IsSpace(s[e - 1]) {
      SkipSpacesBackFacts(s, k, e - 1);
    }
  }

  /** `r` is `s` with `a` whitespace characters cut from its front and only whitespace cut from its back. */
  predicate CutAt(s: string, a: int, r: string) {
    && 0 <= a <= |s| - |r| && r == s[a..a + |r|]
    && (forall i :: 0 <= i < a ==> IsSpace(s[i]))
    && (forall i :: a + |r| <= i < |s| ==> IsSpace(s[i]))
  }

  /** `s.strip()`: `s` without its leading and trailing whitespace, so neither end is whitespace. */
  function Trim(s: string): (r: string)
    ensures |r| <= |s|
    ensures r == [] || (!IsSpace(r[0]) && !IsSpace(r[|r| - 1]))
  {
    var a := SkipSpaces(s, 0);
    SkipSpacesFacts(s, 0);
    SkipSpacesBackFacts(s, a, |s|);
    s[a..SkipSpacesBack(s, a, |s|)]
  }

  /** Trim cuts only whitespace, and all of it, from both ends. */
  lemma TrimFacts(s: string)
    ensures CutAt(s, SkipSpaces(s, 0), Trim(s))
  {
    SkipSpacesFacts(s, 0);
    SkipSpacesBackFacts(s, SkipSpaces(s, 0), |s|);
  }

  /** `s.lower()` over ASCII. */
  function Lower(s: string): (r: string)
    ensures |r| == |s|
  {
    if s == [] then [] else [LowerChar(s[0])] + Lower(s[1..])
  }

  /** Each character of `s.lower()` is the lower-cased character of `s` at the same place. */
  lemma {:induction false} LowerAt(s: string, i: nat)
    requires i < |s|
    ensures Lower(s)[i] == LowerChar(s[i])
  {
    if i > 0 {
      LowerAt(s[1..], i - 1);
    }
  }

  /** Lower-casing leaves no upper-case letter behind. */
  lemma LowerHasNoUpper(s: string)
    ensures forall i :: 0 <= i < |s| ==> !IsUpper(Lower(s)[i])
  {
    forall i | 0 <= i < |s|
      ensures !IsUpper(Lower(s)[i])
    {
      LowerAt(s, i);
      LowerCharFacts(s[i]);
    }
  }

  /** A string without upper-case letters is its own lower-case form. */
  lemma {:induction false} LowerFixed(s: string)
    requires forall i :: 0 <= i < |s| ==> !IsUpper(s[i])
    ensures Lower(s) == s
  {
    if s != [] {
      LowerCharFacts(s[0]);
      LowerFixed(s[1..]);
    }
  }

  /** The normal form of a tag, `tag.strip().lower()`: no surrounding whitespace, no upper-case letter. */
  function Normalise(tag: string): (r: string)
    ensures IsNormalised(r)
  {
    var t := Trim(tag);
    LowerHasNoUpper(t);
    if t != [] then
      LowerAt(t, 0);
      LowerAt(t, |t| - 1);
      LowerCharFacts(t[0]);
      LowerCharFacts(t[|t| - 1]);
      Lower(t)
    else
      Lower(t)
  }

  /** A string that is its own normal form: no surrounding whitespace, no upper-case letter. */
  predicate IsNormalised(t: string) {
    && (t == [] || (!IsSpace(t[0]) && !IsSpace(t[|t| - 1])))
    && forall i :: 0 <= i < |t| ==> !IsUpper(t[i])
  }

  lemma NormalisedIsFixed(t: string)
    requires IsNormalised(t)
    ensures Normalise(t) == t
  {
    assert Trim(t) == t;
    LowerFixed(t);
  }

  /** Normalising a normalised tag changes nothing. */
  lemma NormaliseIdempotent(s: string)
    ensures Normalise(Normalise(s)) == Normalise(s)
  {
    NormalisedIsFixed(Normalise(s));
  }

  /** A tag normalises to the empty string exactly when it is all whitespace. */
  lemma NormaliseEmptyIff(s: string)
    ensures Normalise(s) == [] <==> forall i :: 0 <= i < |s| ==> IsSpace(s[i])
  {
    var r := Trim(s);
    TrimFacts(s);
    var a := SkipSpaces(s, 0);
    if r != [] {
      assert s[a] == r[0] && !IsSpace(s[a]);
    }
  }

  predicate IsDigit(c: char) {
    '0' <= c <= '9'
  }

  /** A non-empty string of decimal digits: the strings this model lets `int()` accept. */
  predicate IsDigitString(s: string) {
    |s| > 0 && forall i :: 0 <= i < |s| ==> IsDigit(s[i])
  }

  function DigitValue(c: char): nat
    requires IsDigit(c)
  {
    c as int - '0' as int
  }

  /** `int(s)` for a string of digits; None where `int()` would raise. */
  function ParseNat(s: string): (r: Option<nat>)
    ensures r.Some? <==> IsDigitString(s)
  {
    if s == [] || !IsDigit(s[|s| - 1]) then None
    else if |s| == 1 then Some(DigitValue(s[0]))
    else match ParseNat(s[..|s| - 1])
      case None => None
      case Some(n) => Some(10 * n + DigitValue(s[|s| - 1]))
  }

  function DigitChar(d: nat): (c: char)
    requires d < 10
    ensures IsDigit(c) && DigitValue(c) == d
  {
    ('0' as int + d) as char
  }

  /** The decimal rendering of `n`, as `str(n)` gives it. */
  function DecimalString(n: nat): (s: string)
    ensures IsDigitString(s)
    ensures |s| > 1 ==> s[0] != '0'
  {
    if n < 10 then [DigitChar(n)] else DecimalString(n / 10) + [DigitChar(n % 10)]
  }

  /** Parsing the decimal rendering of a number gives the number back. */
  lemma {:induction false} ParseDecimalString(n: nat)
    ensures ParseNat(DecimalString(n)) == Some(n)
  {
    if n >= 10 {
      ParseDecimalString(n / 10);
      var s := DecimalString(n);
      assert s[..|s| - 1] == DecimalString(n / 10);
    }
  }

  /** A digit string other than "0" that does not start with '0' denotes a positive number. */
  lemma {:induction false} ParseNatPositive(s: string)
    requires IsDigitString(s) && s[0] != '0'
    ensures ParseNat(s).value > 0
  {
    if |s| > 1 {
      var p := s[..|s| - 1];
      assert p[0] == s[0];
      ParseNatPositive(p);
    }
  }

  /** A digit string without a leading zero is the decimal rendering of its value. */
  lemma {:induction false} DecimalStringOfParse(s: string)
    requires IsDigitString(s) && (|s| == 1 || s[0] != '0')
    ensures DecimalString(ParseNat(s).value) == s
  {
    if |s| > 1 {
      var p := s[..|s| - 1];
      assert p[0] == s[0];
      assert IsDigitString(p);
      ParseNatPositive(p);
      DecimalStringOfParse(p);
      var n := ParseNat(p).value;
      var d := DigitValue(s[|s| - 1]);
      assert ParseNat(s).value == 10 * n + d;
      assert (10 * n + d) / 10 == n && (10 * n + d) % 10 == d;
      assert DigitChar(d) == s[|s| - 1];
      assert s == p + [s[|s| - 1]];
    }
  }
}
