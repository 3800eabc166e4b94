/** Decimal numbers as the program prints (%d) and parses (strconv.ParseInt) them. */
module Decimal {
  import opened Types
  import opened Strings

  predicate IsDigit(c: char) {
    '0' <= c <= '9'
  }

  predicate AllDigits(s: string) {
    forall i :: 0 <= i < |s| ==> IsDigit(s[i])
  }

  function Value(s: string): nat
    requires AllDigits(s)
  {
    if |s| == 0 then 0 else Value(s[..|s| - 1]) * 10 + (s[|s| - 1] as int - '0' as int)
  }

  function Digit(d: nat): char
    requires d < 10
  {
    '0' + d as char
  }

  function Print(n: nat): string {
    if n < 10 then [Digit(n)] else Print(n / 10) + [Digit(n % 10)]
  }

  lemma {:induction false} PrintValue(n: nat)
    ensures Print(n) != "" && AllDigits(Print(n)) && Value(Print(n)) == n
    decreases n
  {
    if n >= 10 {
      PrintValue(n / 10);
      var s := Print(n);
      assert s[..|s| - 1] == Print(n / 10);
    } else {
      assert Print(n)[..0] == "";
    }
  }

  lemma PrintPlain(n: nat)
    ensures Trimmed(Print(n)) && Print(n) != ""
    ensures forall c :: !IsDigit(c) ==> c !in Print(n)
  {
    PrintValue(n);
  }

  const INT64_MAX: int := 0x7fff_ffff_ffff_ffff

  /** strconv.ParseInt(s, 10, 64): an optional sign, digits, and nothing outside the 64-bit range. */
  function ParseInt(s: string): Option<int> {
    if |s| == 0 then None
    else
      var digits := if s[0] == '+' || s[0] == '-' then s[1..] else s;
      if digits == "" || !AllDigits(digits) then None
      else
        var n: int := Value(digits);
        var v := if s[0] == '-' then -n else n;
        if -INT64_MAX - 1 <= v <= INT64_MAX then Some(v) else None
  }

  /** A signed number in the 64-bit range: the only strings that parse, and what they parse to. */
  predicate Spells(s: string, v: int) {
    && s != ""
    && var digits := if s[0] in "+-" then s[1..] else s;
       digits != "" && AllDigits(digits)
       && v == (if s[0] == '-' then -1 else 1) * Value(digits)
       && -0x8000_0000_0000_0000 <= v < 0x8000_0000_0000_0000
  }

  lemma ParseExactly(s: string, v: int)
    ensures ParseInt(s) == Some(v) <==> Spells(s, v)
  {
  }

  /** The ten digits, and a digit after a number. */
  lemma ValueOfDigit(d: nat)
    requires d < 10
    ensures AllDigits([DIGITS[d]]) && Value([DIGITS[d]]) == d
  {
    assert [DIGITS[d]][..0] == "";
  }

  lemma ValueAppend(s: string, d: nat)
    requires AllDigits(s) && d < 10
    ensures AllDigits(s + [DIGITS[d]]) && Value(s + [DIGITS[d]]) == 10 * Value(s) + d
  {
    ValueOfDigit(d);
    assert (s + [DIGITS[d]])[..|s|] == s;
  }

  const DIGITS: string := "0123456789"

  lemma ParsePrinted(n: nat)
    requires n <= INT64_MAX
    ensures ParseInt(Print(n)) == Some(n)
  {
    PrintValue(n);
    assert IsDigit(Print(n)[0]);
  }
}
