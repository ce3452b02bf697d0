/**
 * The few Python string and integer primitives the interpreter relies on,
 * with Python's own semantics (negative indices, clamped slices, `str`, `int`).
 * Characters are compared by code point; case is ASCII case.
 */
module PyStr {
  import opened Wrappers

  /** `s[i]`: a negative index counts from the end. */
  function Index(s: string, i: int): (r: Result<char>)
    ensures r.Ok? <==> -|s| <= i < |s|
  {
    if 0 <= i < |s| then Ok(s[i])
    else if -|s| <= i < 0 then Ok(s[|s| + i])
    else Err(IndexError)
  }

  /** Where a slice bound `i` lands in a string of length `n`. */
  function SliceBound(i: int, n: nat): (b: nat)
    ensures b <= n
  {
    if i < 0 then (if n + i < 0 then 0 else n + i)
    else if i > n then n
    else i
  }

  /** `s[lo:hi]`: never raises; out-of-range bounds are clamped. */
  function Slice(s: string, lo: int, hi: int): (t: string)
    ensures |t| <= |s|
  {
    var a := SliceBound(lo, |s|);
    var b := SliceBound(hi, |s|);
    if a < b then s[a..b] else ""
  }

  /** `s[-2:]`, the last two characters (fewer when `s` is shorter). */
  function LastTwo(s: string): (t: string)
    ensures |s| >= 2 ==> t == s[|s| - 2..]
  {
    Slice(s, -2, |s|)
  }

  function DigitChar(d: int): char
    requires 0 <= d <= 9
  {
    ('0' as int + d) as char
  }

  /** `str(n)` for a natural number: its decimal digits. */
  function NatStr(n: nat): (s: string)
    ensures |s| >= 1
    decreases n
  {
    if n < 10 then [DigitChar(n)] else NatStr(n / 10) + [DigitChar(n % 10)]
  }

  /** `str(i)` for any integer. */
  function IntStr(i: int): (s: string)
    ensures |s| >= 1
  {
    if i < 0 then "-" + NatStr(-i) else NatStr(i)
  }

  /** `str(d)` of a single digit is that digit's character. */
  lemma DigitStr(d: int)
    requires 0 <= d <= 9
    ensures IntStr(d) == [DigitChar(d)] && '0' <= DigitChar(d) <= '9'
  {
  }

  /** `int(c)` of a one-character string: only a decimal digit parses. */
  function DigitValue(c: char): (r: Result<int>)
    ensures r.Ok? <==> '0' <= c <= '9'
    ensures r.Ok? ==> 0 <= r.value <= 9 && IntStr(r.value) == [c]
  {
    if '0' <= c <= '9' then Ok(c as int - '0' as int) else Err(ValueError)
  }

  predicate IsUpperChar(c: char) {
    'A' <= c <= 'Z'
  }

  predicate IsLowerChar(c: char) {
    'a' <= c <= 'z'
  }

  /** `s.islower()`: some cased character, and none of them upper case. */
  predicate IsLower(s: string) {
    (exists i :: 0 <= i < |s| && IsLowerChar(s[i])) &&
    (forall i :: 0 <= i < |s| ==> !IsUpperChar(s[i]))
  }

  /** `c.lower()` of one character. */
  function Lower(c: char): (d: char)
    ensures !IsUpperChar(d)
    ensures !IsUpperChar(c) ==> d == c
  {
    if IsUpperChar(c) then (c as int - 'A' as int + 'a' as int) as char else c
  }

  predicate OccursAt(s: string, needle: string, i: nat)
    requires i + |needle| <= |s|
  {
    s[i..i + |needle|] == needle
  }

  /** `needle in s` for strings: `needle` occurs as a substring of `s`. */
  predicate Contains(s: string, needle: string) {
    exists i: nat :: i + |needle| <= |s| && OccursAt(s, needle, i)
  }

  /** `s.count(c)` for a one-character string `c`. */
  function Count(s: string, c: char): nat {
    multiset(s)[c]
  }

  /** The empty string is in every string; a one-character string is in `s` iff that character is. */
  lemma ContainsShort(s: string, needle: string)
    requires |needle| <= 1
    ensures Contains(s, needle) <==> needle == "" || needle[0] in s
  {
    if needle == "" {
      assert OccursAt(s, needle, 0);
    } else if needle[0] in s {
      var i :| 0 <= i < |s| && s[i] == needle[0];
      assert OccursAt(s, needle, i);
    }
  }
}
