/** ASCII decimal digit strings and their values, shared by the size parser and the log-level parser. */
module Decimal {

  /** What the regular-expression class `\d` matches (no Unicode digits without the `u` flag). */
  predicate IsDigit(c: char) {
    '0' <= c <= '9'
  }

  predicate AllDigits(s: string) {
    forall i :: 0 <= i < |s| ==> IsDigit(s[i])
  }

  function DigitValue(c: char): (d: nat)
    requires IsDigit(c)
    ensures d < 10
  {
    c as int - '0' as int
  }

  function DigitChar(d: nat): (c: char)
    requires d < 10
    ensures IsDigit(c) && DigitValue(c) == d
  {
    ('0' as int + d) as char
  }

  /** The number a digit string denotes, most significant digit first. */
  function Value(ds: string): nat
    requires AllDigits(ds)
  {
    if ds == [] then 0 else Value(ds[..|ds| - 1]) * 10 + DigitValue(ds[|ds| - 1])
  }

  function Pow10(k: nat): (p: nat)
    ensures p >= 1
  {
    if k == 0 then 1 else 10 * Pow10(k - 1)
  }

  function Zeros(k: nat): (z: string)
    ensures |z| == k && AllDigits(z)
    ensures forall i :: 0 <= i < k ==> z[i] == '0'
  {
    if k == 0 then [] else Zeros(k - 1) + ['0']
  }

  /** The shortest decimal spelling of `n`, as JavaScript's `String(n)` writes it. */
  function ToDecimal(n: nat): (s: string)
    ensures s != [] && AllDigits(s)
    ensures Value(s) == n
    decreases n
  {
    if n < 10 then [DigitChar(n)]
    else
      var s := ToDecimal(n / 10) + [DigitChar(n % 10)];
      assert s[..|s| - 1] == ToDecimal(n / 10);
      s
  }

  /** Appending `k` zero digits multiplies the value by ten to the `k`. */
  lemma {:induction false} ValueAppendZeros(ds: string, k: nat)
    requires AllDigits(ds)
    ensures AllDigits(ds + Zeros(k))
    ensures Value(ds + Zeros(k)) == Value(ds) * Pow10(k)
  {
    if k > 0 {
      ValueAppendZeros(ds, k - 1);
      var s := ds + Zeros(k);
      assert s[..|s| - 1] == ds + Zeros(k - 1);
      assert s[|s| - 1] == '0';
      calc {
        Value(s);
        Value(ds + Zeros(k - 1)) * 10;
        Value(ds) * Pow10(k - 1) * 10;
        Value(ds) * Pow10(k);
      }
    } else {
      assert ds + Zeros(k) == ds;
    }
  }
}
