/** Decimal integers as the protocol prints and reads them. */
module Decimal {

  datatype Option<+T> = None | Some(value: T)

  const MAX_DIGITS := 18
  const LONG_MAX := 0x7FFF_FFFF_FFFF_FFFF

  function Pow10(n: nat): (r: int)
    ensures r >= 1
  {
    if n == 0 then 1 else 10 * Pow10(n - 1)
  }

  predicate IsDigit(c: char) {
    '0' <= c <= '9'
  }

  predicate AllDigits(s: string) {
    forall i :: 0 <= i < |s| ==> IsDigit(s[i])
  }

  function DigitValue(c: char): int {
    c as int - '0' as int
  }

  /** The number a digit string denotes. */
  function Value(s: string): int {
    if s == "" then 0 else 10 * Value(s[..|s| - 1]) + DigitValue(s[|s| - 1])
  }

  /** What the protocol accepts as an integer: one to eighteen digits and nothing else. */
  function IntegerOf(text: string): Option<int> {
    if 0 < |text| <= MAX_DIGITS && AllDigits(text) then Some(Value(text)) else None
  }

  function DigitChar(d: int): char
    requires 0 <= d < 10
  {
    '0' + d as char
  }

  /** Prints a non-negative integer. */
  function Print(n: nat): string {
    if n < 10 then [DigitChar(n)] else Print(n / 10) + [DigitChar(n % 10)]
  }

  /** std::to_string on a signed integer. */
  function PrintInt(n: int): (s: string)
    ensures forall i :: 0 <= i < |s| ==> IsDigit(s[i]) || s[i] == '-'
  {
    PrintShape(if n < 0 then -n else n);
    if n < 0 then "-" + Print(-n) else Print(n)
  }

  lemma {:induction false} ValueBound(s: string)
    requires AllDigits(s)
    ensures 0 <= Value(s) < Pow10(|s|)
  {
    if s != "" {
      ValueBound(s[..|s| - 1]);
    }
  }

  lemma {:induction false} Pow10Monotone(a: nat, b: nat)
    requires a <= b
    ensures Pow10(a) <= Pow10(b)
    decreases b
  {
    if a < b {
      Pow10Monotone(a, b - 1);
    }
  }

  lemma Pow10Of18()
    ensures Pow10(18) == 1_000_000_000_000_000_000
  {
    assert Pow10(6) == 1_000_000;
    assert Pow10(12) == 1_000_000_000_000;
  }

  /** Accepted values fit a signed 64-bit integer with room to spare. */
  lemma IntegerBound(text: string)
    ensures var v := IntegerOf(text); v.Some? ==> 0 <= v.value < Pow10(MAX_DIGITS) < LONG_MAX
  {
    Pow10Of18();
    if IntegerOf(text).Some? {
      ValueBound(text);
      Pow10Monotone(|text|, MAX_DIGITS);
    }
  }

  /** The accumulating loop; no intermediate value leaves the 64-bit range. */
  method ParseInteger(text: string) returns (ok: bool, value: int)
    ensures ok == IntegerOf(text).Some?
    ensures ok ==> value == IntegerOf(text).value
  {
    ok, value := false, 0;
    if |text| == 0 || |text| > MAX_DIGITS {
      return;
    }
    for i := 0 to |text|
      invariant AllDigits(text[..i]) && value == Value(text[..i])
    {
      var c := text[i];
      if !IsDigit(c) {
        return;
      }
      assert text[..i + 1][..i] == text[..i];
      ValueBound(text[..i]);
      Pow10Monotone(i + 1, MAX_DIGITS);
      Pow10Of18();
      assert 0 <= value * 10 + DigitValue(c) <= LONG_MAX;
      value := value * 10 + DigitValue(c);
    }
    assert text[..|text|] == text;
    ok := true;
  }

  lemma {:induction false} PrintShape(n: nat)
    ensures |Print(n)| > 0 && AllDigits(Print(n)) && Value(Print(n)) == n
    ensures forall k: nat :: k > 0 && n < Pow10(k) ==> |Print(n)| <= k
  {
    if n < 10 {
      assert Print(n)[..0] == "";
    } else {
      PrintShape(n / 10);
      assert Print(n)[..|Print(n)| - 1] == Print(n / 10);
      assert Pow10(1) == 10;
      forall k: nat | k > 0 && n < Pow10(k) ensures |Print(n)| <= k {
        assert k > 1;
        assert n / 10 < Pow10(k - 1);
      }
    }
  }

  /** Reading inverts printing exactly below 10^18; larger numbers are refused. */
  lemma PrintedIsRead(n: nat)
    ensures IntegerOf(Print(n)) == if n < Pow10(MAX_DIGITS) then Some(n) else None
  {
    PrintShape(n);
    ValueBound(Print(n));
    if |Print(n)| <= MAX_DIGITS {
      Pow10Monotone(|Print(n)|, MAX_DIGITS);
    }
  }
}
