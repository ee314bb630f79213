/**
 * The string operations the script applies to single cells: literal
 * one-character replacement and deletion (`str.replace`), `str.capitalize`,
 * and the decimal rendering of an integer (`astype(str)`).
 * Case mapping is ASCII only.
 */
module Text {

  /** `s.replace(target, with)` with a one-character literal pattern and a one-character replacement. */
  function ReplaceChar(s: string, target: char, with: char): (r: string)
    ensures |r| == |s|
    ensures forall i :: 0 <= i < |s| ==> r[i] == (if s[i] == target then with else s[i])
    ensures target != with ==> target !in r
  {
    if s == [] then [] else [if s[0] == target then with else s[0]] + ReplaceChar(s[1..], target, with)
  }

  /** A string without the pattern is left exactly as it was, and only such a string is. */
  lemma ReplaceCharNoOp(s: string, target: char, with: char)
    requires target != with
    ensures ReplaceChar(s, target, with) == s <==> target !in s
  {
    if target !in s {
      var r := ReplaceChar(s, target, with);
      assert forall i :: 0 <= i < |s| ==> r[i] == s[i];
    }
  }

  /** `s.replace(c, "")`: every occurrence of `c` deleted, nothing else touched. */
  function DeleteChar(s: string, c: char): (r: string)
    ensures c !in r
    ensures multiset(r) == multiset(s)[c := 0]
  {
    if s == [] then []
    else
      assert s == [s[0]] + s[1..];
      (if s[0] == c then [] else [s[0]]) + DeleteChar(s[1..], c)
  }

  /** Deletion works character by character, so it keeps the order of what remains. */
  lemma {:induction false} DeleteCharAppend(s: string, t: string, c: char)
    ensures DeleteChar(s + t, c) == DeleteChar(s, c) + DeleteChar(t, c)
  {
    if s == [] {
      assert s + t == t;
    } else {
      assert (s + t)[0] == s[0];
      assert (s + t)[1..] == s[1..] + t;
      DeleteCharAppend(s[1..], t, c);
    }
  }

  /** A string without `c` is left exactly as it was, and only such a string is. */
  lemma {:induction false} DeleteCharNoOp(s: string, c: char)
    ensures DeleteChar(s, c) == s <==> c !in s
  {
    if s != [] && c !in s {
      assert c !in s[1..];
      DeleteCharNoOp(s[1..], c);
      assert s == [s[0]] + s[1..];
    }
  }

  /** Deleting twice is deleting once. */
  lemma DeleteCharIdempotent(s: string, c: char)
    ensures DeleteChar(DeleteChar(s, c), c) == DeleteChar(s, c)
  {
    DeleteCharNoOp(DeleteChar(s, c), c);
  }

  function Upper(ch: char): char
  {
    if 'a' <= ch <= 'z' then (ch as int - 32) as char else ch
  }

  function Lower(ch: char): char
  {
    if 'A' <= ch <= 'Z' then (ch as int + 32) as char else ch
  }

  /** `s.lower()` on ASCII letters. */
  function LowerAll(s: string): string
  {
    seq(|s|, i requires 0 <= i < |s| => Lower(s[i]))
  }

  /** `s.capitalize()`: the first character upper-cased and every other character lower-cased. */
  function Capitalize(s: string): string
  {
    if s == [] then [] else [Upper(s[0])] + LowerAll(s[1..])
  }

  /** Capitalising depends only on the letters, not on their case, and keeps them. */
  lemma CapitalizeIgnoresCase(s: string)
    ensures |Capitalize(s)| == |s|
    ensures Capitalize(LowerAll(s)) == Capitalize(s)
    ensures LowerAll(Capitalize(s)) == LowerAll(s)
  {
    if s != [] {
      assert LowerAll(s)[1..] == LowerAll(s[1..]);
      assert LowerAll(LowerAll(s[1..])) == LowerAll(s[1..]);
      var c := Capitalize(s);
      assert forall i :: 0 <= i < |s| ==> LowerAll(c)[i] == LowerAll(s)[i];
    }
  }

  /** Capitalising a capitalised string changes nothing. */
  lemma CapitalizeIdempotent(s: string)
    ensures Capitalize(Capitalize(s)) == Capitalize(s)
  {
    if s != [] {
      var c := Capitalize(s);
      assert c[1..] == LowerAll(s[1..]);
      assert LowerAll(c[1..]) == c[1..];
    }
  }

  predicate IsDigit(ch: char)
  {
    '0' <= ch <= '9'
  }

  predicate AllDigits(s: string)
  {
    forall i :: 0 <= i < |s| ==> IsDigit(s[i])
  }

  function DigitChar(d: int): char
    requires 0 <= d <= 9
  {
    ('0' as int + d) as char
  }

  function DigitValue(ch: char): int
    requires IsDigit(ch)
  {
    ch as int - '0' as int
  }

  /** The value of a string of decimal digits, most significant first. */
  function DigitsValue(s: string): int
    requires AllDigits(s)
  {
    if s == [] then 0 else DigitsValue(s[..|s| - 1]) * 10 + DigitValue(s[|s| - 1])
  }

  /** `str(n)` for a non-negative integer: decimal digits, no leading zero. */
  function NatString(n: nat): (r: string)
    ensures AllDigits(r)
    ensures |r| >= 1
    ensures r[0] == '0' <==> n == 0
    ensures n < 10 ==> |r| == 1
    ensures 10 <= n < 100 ==> |r| == 2
    ensures 100 <= n ==> |r| >= 3
    decreases n
  {
    if n < 10 then [DigitChar(n)] else NatString(n / 10) + [DigitChar(n % 10)]
  }

  /** Reading the digits back gives the number that was written. */
  lemma {:induction false} NatStringRoundTrip(n: nat)
    ensures DigitsValue(NatString(n)) == n
    decreases n
  {
    var r := NatString(n);
    if n >= 10 {
      NatStringRoundTrip(n / 10);
      assert r[..|r| - 1] == NatString(n / 10);
    }
  }

  /** `str(n)` for any integer, with a leading minus sign when negative. */
  function DecimalString(n: int): (r: string)
    ensures |r| >= 1
    ensures r[0] == '-' <==> n < 0
    ensures n >= 0 ==> AllDigits(r) && DigitsValue(r) == n
  {
    if n < 0 then "-" + NatString(-n)
    else
      NatStringRoundTrip(n);
      NatString(n)
  }
}
