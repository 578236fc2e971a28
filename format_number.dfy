/**
 * `formatNumber` of the landing page: a count shown as millions ("1.2M"),
 * thousands ("3.4K") or as it is. The argument is the integer `parseInt`
 * produced.
 */
module HomePage {
  import opened Optional
  import opened Decimal

  /**
   * `(n / unit).toFixed(1)` as a count of tenths: the nearest tenth, a tie going
   * up, computed exactly.
   */
  function Tenths(n: int, unit: nat): (t: int)
    requires unit > 0
    ensures 2 * t * unit <= 20 * n + unit < 2 * (t + 1) * unit
  {
    var q := (20 * n + unit) / (2 * unit);
    assert 20 * n + unit == q * (2 * unit) + (20 * n + unit) % (2 * unit);
    q
  }

  /** A count of tenths written with one decimal, as `toFixed(1)` writes a non-negative value. */
  function FixedOne(t: nat): string {
    NatToString(t / 10) + "." + [Digit(t % 10)]
  }

  /** Reads "<digits>.<digit>" back into a count of tenths. */
  function ParseFixedOne(text: string): Option<nat> {
    var n := |text|;
    if n >= 3 && text[n - 2] == '.' && AllDigits(text[..n - 2]) && IsDigit(text[n - 1])
    then Some(DigitsValue(text[..n - 2]) * 10 + (text[n - 1] as int - '0' as int))
    else None
  }

  lemma FixedOneRoundTrip(t: nat)
    ensures ParseFixedOne(FixedOne(t)) == Some(t)
  {
    var r := FixedOne(t);
    assert r[..|r| - 2] == NatToString(t / 10);
    NatToStringValue(t / 10);
  }

  const Million: nat := 1000000
  const Thousand: nat := 1000

  function FormatNumber(n: int): (r: string)
    ensures |r| >= 1
    ensures r[|r| - 1] == 'M' <==> n >= Million
    ensures r[|r| - 1] == 'K' <==> Thousand <= n < Million
    ensures n < Thousand ==> ParseDecimal(r) == Some(n)
  {
    if n >= Million then FixedOne(Tenths(n, Million)) + "M"
    else if n >= Thousand then FixedOne(Tenths(n, Thousand)) + "K"
    else
      IntToStringRoundTrip(n);
      IntToString(n)
  }

  /**
   * Above a thousand, the text before the suffix is the count in millions
   * (from a million on) or thousands, rounded to the nearest tenth.
   */
  lemma ScaledValue(n: int)
    requires n >= Thousand
    ensures var unit := if n >= Million then Million else Thousand;
            var r := FormatNumber(n);
            var t := ParseFixedOne(r[..|r| - 1]);
            t.Some? && 2 * t.value * unit <= 20 * n + unit < 2 * (t.value + 1) * unit
  {
    var unit := if n >= Million then Million else Thousand;
    var t := Tenths(n, unit);
    var r := FormatNumber(n);
    assert r[..|r| - 1] == FixedOne(t);
    FixedOneRoundTrip(t);
  }
}
