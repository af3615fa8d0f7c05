/** Decimal text of a non-negative integer, as Rust's `to_string` on an
    unsigned integer writes it: digits only, no sign, no leading zero. */
module Decimal {

  predicate IsDigit(c: char)
  {
    '0' <= c <= '9'
  }

  function DigitChar(d: nat): (c: char)
    requires d < 10
    ensures IsDigit(c) && DigitValue(c) == d
  {
    ['0', '1', '2', '3', '4', '5', '6', '7', '8', '9'][d]
  }

  function DigitValue(c: char): (d: nat)
    requires IsDigit(c)
    ensures d < 10
  {
    c as nat - '0' as nat
  }

  /** The decimal rendering of `n`. */
  function ToDecimal(n: nat): (s: string)
    ensures |s| >= 1
    ensures forall i :: 0 <= i < |s| ==> IsDigit(s[i])
    ensures s[0] == '0' ==> s == "0" && n == 0
    decreases n
  {
    if n < 10 then [DigitChar(n)] else ToDecimal(n / 10) + [DigitChar(n % 10)]
  }

  /** Reading decimal digits back into a number, last digit least significant. */
  function FromDecimal(s: string): (n: nat)
    requires forall i :: 0 <= i < |s| ==> IsDigit(s[i])
    decreases |s|
  {
    if s == [] then 0 else 10 * FromDecimal(s[..|s| - 1]) + DigitValue(s[|s| - 1])
  }

  /** Rendering and reading back are inverse: the key text determines the id. */
  lemma {:induction false} FromToDecimal(n: nat)
    ensures FromDecimal(ToDecimal(n)) == n
    decreases n
  {
    var s := ToDecimal(n);
    if n >= 10 {
      FromToDecimal(n / 10);
      assert s[..|s| - 1] == ToDecimal(n / 10);
    }
  }

  /** Two different numbers never share a rendering. */
  lemma ToDecimalInjective(m: nat, n: nat)
    requires ToDecimal(m) == ToDecimal(n)
    ensures m == n
  {
    FromToDecimal(m);
    FromToDecimal(n);
  }

  /** `10^k`. */
  function Pow10(k: nat): (p: nat)
  {
    if k == 0 then 1 else 10 * Pow10(k - 1)
  }

  /** A number in `[10^(k-1), 10^k)` has exactly `k` digits. */
  lemma {:induction false} ToDecimalLength(n: nat, k: nat)
    requires 1 <= k
    requires (if k == 1 then 0 else Pow10(k - 1)) <= n < Pow10(k)
    ensures |ToDecimal(n)| == k
    decreases k
  {
    if k > 1 {
      ToDecimalLength(n / 10, k - 1);
    }
  }

  /** Every id in `1_000..=9_999` renders as exactly four digits. */
  lemma FourDigits(n: nat)
    requires 1_000 <= n <= 9_999
    ensures |ToDecimal(n)| == 4
  {
    assert Pow10(3) == 1_000 && Pow10(4) == 10_000;
    ToDecimalLength(n, 4);
  }
}
