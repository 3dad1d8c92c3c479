/** Decimal numerals, and the width of Go's int64. */
module Decimals {
  import opened Common

  const MAX_INT64: int := 0x7fff_ffff_ffff_ffff

  predicate IsDigit(c: char) {
    '0' <= c <= '9'
  }

  function DigitValue(c: char): nat
    requires IsDigit(c)
  {
    c as int - '0' as int
  }

  function Digit(d: nat): char
    requires d < 10
  {
    (d + '0' as int) as char
  }

  function Print(n: nat): string {
    if n < 10 then [Digit(n)] else Print(n / 10) + [Digit(n % 10)]
  }

  predicate AllDigits(s: string) {
    forall i :: 0 <= i < |s| ==> IsDigit(s[i])
  }

  function Number(s: string): nat
    requires AllDigits(s)
  {
    if s == [] then 0 else var n := |s| - 1; Number(s[..n]) * 10 + DigitValue(s[n])
  }

  lemma {:induction false} PrintReads(n: nat)
    ensures Print(n) != [] && AllDigits(Print(n)) && Number(Print(n)) == n
    ensures Print(n)[0] == '0' ==> n == 0 && |Print(n)| == 1
  {
    if n < 10 {
      assert Number([]) == 0;
      assert Print(n)[..0] == [];
    } else {
      PrintReads(n / 10);
      assert Print(n)[..|Print(n)| - 1] == Print(n / 10);
    }
  }

  /** strconv.Atoi: an optional sign, at least one digit, within int64. */
  function Atoi(s: string): Option<int> {
    var digits := if s != [] && (s[0] == '+' || s[0] == '-') then s[1..] else s;
    if digits == [] || !AllDigits(digits) then None
    else
      var v: int := if s[0] == '-' then 0 - Number(digits) else Number(digits);
      if -MAX_INT64 - 1 <= v <= MAX_INT64 then Some(v) else None
  }

  lemma AtoiPrint(n: nat)
    requires n <= MAX_INT64
    ensures Atoi(Print(n)) == Some(n)
  {
    PrintReads(n);
    assert IsDigit(Print(n)[0]);
  }
}
