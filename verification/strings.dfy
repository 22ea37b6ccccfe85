/** The handful of JavaScript string and number primitives the app relies on,
    restricted to the behaviour it exercises. */
module Strings {

  predicate IsDigit(c: char)
  {
    '0' <= c <= '9'
  }

  predicate AllDigits(s: string)
  {
    forall i :: 0 <= i < |s| ==> IsDigit(s[i])
  }

  function DigitChar(d: nat): (c: char)
    requires d < 10
    ensures IsDigit(c)
  {
    "0123456789"[d]
  }

  function DigitValue(c: char): (d: nat)
    requires IsDigit(c)
    ensures d < 10
    ensures DigitChar(d) == c
  {
    (c as int - '0' as int) as nat
  }

  /** Decimal rendering of a natural number, as template literals produce it. */
  function NatToString(n: nat): (s: string)
    ensures |s| >= 1
    ensures AllDigits(s)
    decreases n
  {
    if n < 10 then [DigitChar(n)] else NatToString(n / 10) + [DigitChar(n % 10)]
  }

  /** The value of a string of decimal digits, read left to right. */
  function DigitsValue(s: string): nat
    requires AllDigits(s)
  {
    if |s| == 0 then 0 else DigitsValue(s[..|s| - 1]) * 10 + DigitValue(s[|s| - 1])
  }

  lemma {:induction false} DigitsValueOfNatToString(n: nat)
    ensures DigitsValue(NatToString(n)) == n
    decreases n
  {
    var s := NatToString(n);
    if n >= 10 {
      var p := NatToString(n / 10);
      assert s[..|s| - 1] == p;
      DigitsValueOfNatToString(n / 10);
    }
  }

  /** Length of the longest prefix of `s` made of digits. */
  function DigitPrefixLength(s: string): (k: nat)
    ensures k <= |s|
    ensures AllDigits(s[..k])
    ensures k < |s| ==> !IsDigit(s[k])
  {
    if |s| == 0 || !IsDigit(s[0]) then 0
    else
      var k := 1 + DigitPrefixLength(s[1..]);
      assert s[..k] == [s[0]] + s[1..][..k - 1];
      k
  }

  /** A JavaScript number as `parseInt` can produce it. */
  datatype JsNumber = NaN | Num(value: int)

  /** `parseInt(s, 10)` on the text of a number input: an optional sign,
      then the longest run of digits; no digit at all gives NaN. */
  function ParseInt(s: string): (r: JsNumber)
    ensures |s| == 0 ==> r == NaN
    ensures r.Num? ==> exists k :: 0 <= k < |s| && IsDigit(s[k])
  {
    var neg := |s| > 0 && s[0] == '-';
    var start := if |s| > 0 && (s[0] == '-' || s[0] == '+') then 1 else 0;
    var body := s[start..];
    var k := DigitPrefixLength(body);
    if k == 0 then NaN
    else
      assert IsDigit(s[start]) by { assert body[0] == s[start]; }
      var v := DigitsValue(body[..k]);
      Num(if neg then -(v as int) else v)
  }

  /** parseInt reads back every decimal rendering. */
  lemma ParseIntOfNatToString(n: nat)
    ensures ParseInt(NatToString(n)) == Num(n)
    ensures ParseInt("-" + NatToString(n)) == Num(-(n as int))
  {
    var s := NatToString(n);
    DigitsValueOfNatToString(n);
    assert s[0..] == s;
    assert s[..|s|] == s;
    var t := "-" + s;
    assert t[1..] == s;
  }

  function ToLowerChar(c: char): char
  {
    if 'A' <= c <= 'Z' then (c as int + 32) as char else c
  }

  function ToUpperChar(c: char): char
  {
    if 'a' <= c <= 'z' then (c as int - 32) as char else c
  }

  /** `toLowerCase`, on the ASCII letters. */
  function ToLower(s: string): (r: string)
    ensures |r| == |s|
    ensures forall i :: 0 <= i < |s| ==> r[i] == ToLowerChar(s[i])
  {
    if |s| == 0 then "" else [ToLowerChar(s[0])] + ToLower(s[1..])
  }

  /** `toUpperCase`, on the ASCII letters. */
  function ToUpper(s: string): (r: string)
    ensures |r| == |s|
    ensures forall i :: 0 <= i < |s| ==> r[i] == ToUpperChar(s[i])
  {
    if |s| == 0 then "" else [ToUpperChar(s[0])] + ToUpper(s[1..])
  }

  /** `s.includes(p)`. */
  predicate Contains(s: string, p: string)
  {
    exists i :: 0 <= i <= |s| - |p| && OccursAt(s, p, i)
  }

  /** `p` sits in `s` starting at index `i`. */
  predicate OccursAt(s: string, p: string, i: int)
  {
    0 <= i <= |s| - |p| && s[i..i + |p|] == p
  }

  /** `s.substring(0, n)`. */
  function Take(s: string, n: nat): (r: string)
    ensures |r| <= n && |r| <= |s|
    ensures |r| == if |s| <= n then |s| else n
    ensures r == s[..|r|]
    ensures |s| <= n ==> r == s
  {
    if |s| <= n then s else s[..n]
  }

  /** `s.replace(a, b)` with a one-character pattern: only the FIRST
      occurrence of `a` is replaced. */
  function ReplaceFirst(s: string, a: char, b: char): (r: string)
    ensures |r| == |s|
    ensures a !in s ==> r == s
    ensures forall i :: 0 <= i < |s| ==> r[i] == s[i] || (s[i] == a && r[i] == b)
  {
    if |s| == 0 then s
    else if s[0] == a then
      assert s == [s[0]] + s[1..];
      [b] + s[1..]
    else
      var rest := ReplaceFirst(s[1..], a, b);
      assert s == [s[0]] + s[1..];
      assert a in s ==> a in s[1..];
      [s[0]] + rest
  }

  /** `k` is the index of the first occurrence of `a` in `s`. */
  predicate FirstAt(s: string, a: char, k: int)
  {
    0 <= k < |s| && s[k] == a && a !in s[..k]
  }

  /** The index of the first occurrence of `a` in `s`. */
  function FirstIndex(s: string, a: char): (k: nat)
    requires a in s
    ensures FirstAt(s, a, k)
  {
    if s[0] == a then 0
    else
      assert s == [s[0]] + s[1..];
      var k := FirstIndex(s[1..], a);
      assert s[..k + 1] == [s[0]] + s[1..][..k];
      k + 1
  }

  /** `ReplaceFirst` swaps exactly the first occurrence and keeps every other character. */
  lemma {:induction false} ReplaceFirstSplit(s: string, a: char, b: char)
    requires a in s
    ensures forall i :: 0 <= i < |s| ==>
      ReplaceFirst(s, a, b)[i] == if i == FirstIndex(s, a) then b else s[i]
    decreases |s|
  {
    if s[0] != a {
      var t := s[1..];
      assert a in t by {
        assert s == [s[0]] + t;
      }
      ReplaceFirstSplit(t, a, b);
      var k := FirstIndex(t, a);
      var r := ReplaceFirst(s, a, b);
      assert r == [s[0]] + ReplaceFirst(t, a, b);
      forall i | 0 <= i < |s|
        ensures r[i] == if i == k + 1 then b else s[i]
      {
        if i > 0 {
          assert r[i] == ReplaceFirst(t, a, b)[i - 1];
        }
      }
    }
  }
}
