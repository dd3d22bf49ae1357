/** Unsigned numbers as a C++ stream prints them, in decimal or lower-case hexadecimal. */
module Numerals {

  const DIGITS := "0123456789abcdef"

  predicate Base(base: nat) {
    base == 10 || base == 16
  }

  function Print(n: nat, base: nat): (r: string)
    requires Base(base)
    ensures r != "" && forall i :: 0 <= i < |r| ==> r[i] in DIGITS
    decreases n
  {
    if n < base then [DIGITS[n]] else Print(n / base, base) + [DIGITS[n % base]]
  }

  /** No leading zero. */
  lemma {:induction false} PrintStartsWithDigit(n: nat, base: nat)
    requires Base(base)
    ensures Print(n, base)[0] == '0' ==> n == 0 && Print(n, base) == "0"
    decreases n
  {
    if n < base {
      assert forall d :: 0 < d < 16 ==> DIGITS[d] != '0';
    } else {
      PrintStartsWithDigit(n / base, base);
      assert Print(n, base)[0] == Print(n / base, base)[0];
    }
  }

  function DigitValue(c: char): nat {
    if '0' <= c <= '9' then c as int - '0' as int
    else if 'a' <= c <= 'f' then c as int - 'a' as int + 10
    else 0
  }

  function Read(s: string, base: nat): nat {
    if s == "" then 0 else Read(s[..|s| - 1], base) * base + DigitValue(s[|s| - 1])
  }

  lemma DigitOf(d: nat)
    requires d < 16
    ensures DigitValue(DIGITS[d]) == d
  {
    if d < 10 {
      assert DIGITS[..10] == "0123456789";
    }
  }

  lemma {:induction false} ReadPrint(n: nat, base: nat)
    requires Base(base)
    ensures Read(Print(n, base), base) == n
    decreases n
  {
    DigitOf(n % base);
    if n < base {
      assert Read("", base) == 0;
      assert [DIGITS[n]][..0] == "";
    } else {
      ReadPrint(n / base, base);
      assert Print(n, base)[..|Print(n, base)| - 1] == Print(n / base, base);
    }
  }
}
