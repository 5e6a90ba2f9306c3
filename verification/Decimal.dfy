/** Decimal numbers as command arguments. */
module Decimal {
  import opened Common

  function Digit(d: nat): char
    requires d < 10
  {
    ('0' as int + d) as char
  }

  predicate AllDigits(s: string) {
    forall i :: 0 <= i < |s| ==> '0' <= s[i] <= '9'
  }

  function Itoa(n: nat): string {
    if n < 10 then [Digit(n)] else Itoa(n / 10) + [Digit(n % 10)]
  }

  function Value(digits: string): nat
    requires AllDigits(digits)
  {
    if digits == "" then 0
    else Value(digits[..|digits| - 1]) * 10 + (digits[|digits| - 1] as int - '0' as int)
  }

  const MAX_INT := 0x7fff_ffff_ffff_ffff

  /** An optional sign and at least one digit, in the range of a 64-bit integer. */
  function Atoi(s: string): Option<int> {
    var digits := if s != "" && (s[0] == '+' || s[0] == '-') then s[1..] else s;
    if digits == "" || !AllDigits(digits) then None
    else
      var magnitude: int := Value(digits);
      var value := if s[0] == '-' then -magnitude else magnitude;
      if -MAX_INT - 1 <= value <= MAX_INT then Some(value) else None
  }

  lemma {:induction false} ItoaReads(n: nat)
    ensures Itoa(n) != "" && AllDigits(Itoa(n)) && Value(Itoa(n)) == n
  {
    if n >= 10 {
      ItoaReads(n / 10);
      assert Itoa(n)[..|Itoa(n)| - 1] == Itoa(n / 10);
    } else {
      assert Itoa(n)[..0] == "";
    }
  }

  /** What is printed is read back. */
  lemma RoundTrip(n: nat)
    requires n <= MAX_INT
    ensures Atoi(Itoa(n)) == Some(n)
  {
    ItoaReads(n);
    assert '0' <= Itoa(n)[0] <= '9';
  }

  /** What reads as a number, and as which: digits with or without one sign before them, in the range of 64 bits. */
  lemma AtoiInFull(sign: string, digits: string)
    requires sign in {"", "+", "-"} && digits != "" && AllDigits(digits)
    ensures var value: int := if sign == "-" then 0 - Value(digits) else Value(digits);
      Atoi(sign + digits) == if -0x8000_0000_0000_0000 <= value < 0x8000_0000_0000_0000 then Some(value) else None
  {
    var s := sign + digits;
    if sign == "" {
      assert s == digits;
      assert '0' <= digits[0] <= '9';
    } else {
      assert s[0] == sign[0] && s[1..] == digits;
    }
  }

  lemma AtoiNeedsDigits(s: string)
    requires Atoi(s).Some?
    ensures exists sign: string, digits: string ::
      s == sign + digits && sign in {"", "+", "-"} && digits != "" && AllDigits(digits)
  {
    if s[0] == '+' || s[0] == '-' {
      assert s == s[..1] + s[1..] && (s[..1] == "+" || s[..1] == "-");
    } else {
      assert s == "" + s;
    }
  }

  /** Every digit stands where it counts: the k-th from the right of a printed number is that of the k-th power of ten. */
  lemma {:induction false} DigitInPlace(n: nat, k: nat)
    requires k < |Itoa(n)|
    ensures Itoa(n)[|Itoa(n)| - 1 - k] == Digit(Shifted(n, k) % 10)
  {
    if k > 0 {
      DigitInPlace(n / 10, k - 1);
    }
  }

  // The number without its last k digits.
  function Shifted(n: nat, k: nat): nat {
    if k == 0 then n else Shifted(n / 10, k - 1)
  }
}
