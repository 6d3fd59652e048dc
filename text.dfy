/** String helpers shared by the venue clients and the formatting utilities.
    Strings are sequences of characters; case mapping covers ASCII letters only. */
module Text {

  function UpperChar(c: char): char {
    if 'a' <= c <= 'z' then (c as int - 32) as char else c
  }

  function LowerChar(c: char): char {
    if 'A' <= c <= 'Z' then (c as int + 32) as char else c
  }

  /** `toUpperCase` restricted to ASCII. */
  function Upper(s: string): (r: string)
    ensures |r| == |s|
    ensures forall i :: 0 <= i < |s| ==> r[i] == UpperChar(s[i])
  {
    seq(|s|, i requires 0 <= i < |s| => UpperChar(s[i]))
  }

  /** `toLowerCase` restricted to ASCII. */
  function Lower(s: string): (r: string)
    ensures |r| == |s|
    ensures forall i :: 0 <= i < |s| ==> r[i] == LowerChar(s[i])
  {
    seq(|s|, i requires 0 <= i < |s| => LowerChar(s[i]))
  }

  predicate IsUpperCase(s: string) {
    forall i :: 0 <= i < |s| ==> !('a' <= s[i] <= 'z')
  }

  lemma UpperIsUpperCase(s: string)
    ensures IsUpperCase(Upper(s))
  {
  }

  function StartsWith(s: string, prefix: string): bool {
    |prefix| <= |s| && s[..|prefix|] == prefix
  }

  /** `String.prototype.includes`. */
  function Contains(s: string, t: string): (b: bool)
    decreases |s|
  {
    if |t| > |s| then false
    else if s[..|t|] == t then true
    else if s == [] then false
    else Contains(s[1..], t)
  }

  /** Any string that contains `t` contains every prefix of `t`. */
  lemma {:induction false} ContainsPrefix(s: string, t: string, k: nat)
    requires k <= |t|
    requires Contains(s, t)
    ensures Contains(s, t[..k])
    decreases |s|
  {
    if s[..|t|] == t {
      assert s[..k] == t[..k];
    } else {
      ContainsPrefix(s[1..], t, k);
    }
  }

  function DigitChar(d: nat): char
    requires d < 10
  {
    "0123456789"[d]
  }

  /** Decimal rendering of a natural number, as `String(n)` gives it. */
  function NatText(n: nat): (r: string)
    ensures |r| >= 1
    decreases n
  {
    if n < 10 then [DigitChar(n)] else NatText(n / 10) + [DigitChar(n % 10)]
  }

  /** Decimal rendering of an integer, with a leading '-' when negative. */
  function IntText(i: int): string {
    if i < 0 then "-" + NatText(-i) else NatText(i)
  }

  // Hexadecimal digits

  predicate IsHexDigit(c: char) {
    ('0' <= c <= '9') || ('a' <= c <= 'f') || ('A' <= c <= 'F')
  }

  /** Value of a hexadecimal digit of either case, as `parseInt(_, 16)` reads it. */
  function HexValue(c: char): (v: nat)
    requires IsHexDigit(c)
    ensures v < 16
  {
    if '0' <= c <= '9' then c as int - '0' as int
    else if 'a' <= c <= 'f' then c as int - 'a' as int + 10
    else c as int - 'A' as int + 10
  }

  /** Lower-case hexadecimal digit of a value below 16, as `toString(16)` writes it. */
  function HexChar(v: nat): (c: char)
    requires v < 16
    ensures IsHexDigit(c)
  {
    "0123456789abcdef"[v]
  }

  lemma HexCharOfValue(c: char)
    requires IsHexDigit(c)
    ensures HexChar(HexValue(c)) == LowerChar(c)
  {
  }

  lemma HexValueOfChar(v: nat)
    requires v < 16
    ensures HexValue(HexChar(v)) == v
  {
  }

  /** `n.toString(16)` for a natural number. */
  function NatHex(n: nat): (r: string)
    ensures |r| >= 1
    ensures n < 16 ==> r == [HexChar(n)]
    ensures 16 <= n < 256 ==> r == [HexChar(n / 16), HexChar(n % 16)]
    decreases n
  {
    if n < 16 then [HexChar(n)] else NatHex(n / 16) + [HexChar(n % 16)]
  }

  /** `n.toString(16)` for an integer. */
  function IntHex(n: int): string {
    if n < 0 then "-" + NatHex(-n) else NatHex(n)
  }
}
