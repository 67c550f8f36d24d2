/** String helpers with the meaning JavaScript gives them: substring search
    (`includes`), ASCII lower-casing (`toLowerCase`), decimal rendering of
    numbers (`toString`) and left padding (`padStart`). */
module Text {

  predicate IsPrefix(p: string, s: string)
  {
    |p| <= |s| && s[..|p|] == p
  }

  predicate IsSuffix(p: string, s: string)
  {
    |p| <= |s| && s[|s| - |p|..] == p
  }

  /** `s.includes(sub)`: `sub` occurs somewhere in `s`. */
  predicate Contains(s: string, sub: string)
    decreases |s|
  {
    IsPrefix(sub, s) || (s != [] && Contains(s[1..], sub))
  }

  lemma {:induction false} ContainsEmpty(s: string)
    ensures Contains(s, "")
  {
    assert IsPrefix("", s);
  }

  /** Whatever a string ends with, it contains. */
  lemma {:induction false} SuffixContained(s: string, p: string)
    requires IsSuffix(p, s)
    ensures Contains(s, p)
    decreases |s|
  {
    if |p| == |s| {
      assert s[..|p|] == s[|s| - |p|..];
    } else {
      assert s[1..][|s[1..]| - |p|..] == s[|s| - |p|..];
      SuffixContained(s[1..], p);
    }
  }

  lemma ConcatSuffix(x: string, p: string)
    ensures IsSuffix(p, x + p)
  {
    assert (x + p)[|x + p| - |p|..] == p;
  }

  /** Two suffixes of the same length of one string are equal. */
  lemma SameLengthSuffixes(s: string, p: string, q: string)
    requires IsSuffix(p, s) && IsSuffix(q, s) && |p| == |q|
    ensures p == q
  {
  }

  function LowerChar(c: char): (r: char)
    ensures 'A' <= c <= 'Z' ==> r as int == c as int + 32
    ensures !('A' <= c <= 'Z') ==> r == c
  {
    if 'A' <= c <= 'Z' then (c as int + 32) as char else c
  }

  /** `toLowerCase`, restricted to ASCII letters. */
  function Lower(s: string): (r: string)
    ensures |r| == |s|
    ensures forall i :: 0 <= i < |s| ==> r[i] == LowerChar(s[i])
  {
    seq(|s|, i requires 0 <= i < |s| => LowerChar(s[i]))
  }

  function Digit(d: nat): (c: char)
    requires d < 10
    ensures '0' <= c <= '9' && c as int - '0' as int == d
  {
    ('0' as int + d) as char
  }

  /** `n.toString()` for a natural number: its decimal digits, most significant first. */
  function Decimal(n: nat): (r: string)
    ensures 1 <= |r|
    ensures forall i :: 0 <= i < |r| ==> '0' <= r[i] <= '9'
  {
    if n < 10 then [Digit(n)] else Decimal(n / 10) + [Digit(n % 10)]
  }

  /** `i.toString()` for an integer. */
  function IntString(i: int): (r: string)
    ensures i >= 0 ==> r == Decimal(i)
    ensures i < 0 ==> r == "-" + Decimal(-i)
  {
    if i < 0 then "-" + Decimal(-i) else Decimal(i)
  }

  /** `s.padStart(width, c)`. */
  function PadStart(s: string, width: nat, c: char): (r: string)
    ensures |r| == if |s| < width then width else |s|
    ensures IsSuffix(s, r)
    ensures forall i :: 0 <= i < |r| - |s| ==> r[i] == c
  {
    if |s| < width then seq(width - |s|, _ => c) + s else s
  }

  /** A number below 100 padded to two digits is its tens digit then its units digit. */
  lemma {:induction false} TwoDigits(n: nat)
    requires n < 100
    ensures PadStart(Decimal(n), 2, '0') == [Digit(n / 10), Digit(n % 10)]
  {
    if n < 10 {
      assert Decimal(n) == [Digit(n)];
      assert Digit(0) == '0';
    } else {
      assert Decimal(n / 10) == [Digit(n / 10)];
    }
  }
}
