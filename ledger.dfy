/**
 * Ledger arithmetic: the commission split of a booking amount, done once with
 * JavaScript's `Math.round` (src/lib/earningsCalculator.ts, create-booking) and once
 * with Python's `round(x, 2)` (backend/utils.py), and the commission-rate fallbacks.
 *
 * An amount of A paise at a rate of b basis points has the exact commission
 * A * b / 10000 paise; rounding "to 2 decimals" of rupees is rounding to whole paise.
 */
module Ledger {
  import opened Records

  /** 100% in basis points. */
  const FullRate: Rate := 10000

  // ------------------------------------------------------------------
  // Rounding
  // ------------------------------------------------------------------

  /** `Math.round(n / d)`: the nearest integer, halves going up (towards +infinity). */
  function RoundHalfUp(n: int, d: int): (q: int)
    requires d > 0
    ensures 2 * (d * q) - d <= 2 * n < 2 * (d * q) + d
  {
    var q := (2 * n + d) / (2 * d);
    var r := (2 * n + d) % (2 * d);
    assert 2 * n + d == (2 * d) * q + r && 0 <= r < 2 * d;
    assert (2 * d) * q == 2 * (d * q);
    q
  }

  /** Python's `round(n / d)` on the exact quotient: the nearest integer, halves going to the even one. */
  function RoundHalfEven(n: int, d: int): (q: int)
    requires d > 0
    ensures 2 * (d * q) - d <= 2 * n <= 2 * (d * q) + d
    ensures (2 * n == 2 * (d * q) - d || 2 * n == 2 * (d * q) + d) ==> q % 2 == 0
  {
    var f := n / d;
    var rem := n % d;
    assert n == d * f + rem && 0 <= rem < d;
    if 2 * rem < d || (2 * rem == d && f % 2 == 0) then
      NearestOfQuotient(n, d, f, rem, f);
      f
    else
      NearestOfQuotient(n, d, f, rem, f + 1);
      f + 1
  }

  /** Rounding the quotient f with remainder rem down (q == f) or up (q == f + 1) lands
      within half a step of n / d exactly when the remainder allows it. */
  lemma NearestOfQuotient(n: int, d: int, f: int, rem: int, q: int)
    requires d > 0 && n == d * f + rem && 0 <= rem < d
    requires q == f ==> 2 * rem <= d
    requires q == f + 1 ==> 2 * rem >= d
    requires q == f || q == f + 1
    ensures 2 * (d * q) - d <= 2 * n <= 2 * (d * q) + d
    ensures 2 * n == 2 * (d * q) - d ==> 2 * rem == d && q == f + 1
    ensures 2 * n == 2 * (d * q) + d ==> 2 * rem == d && q == f
  {
    if q == f + 1 {
      assert d * q == d * f + d;
    }
  }

  /** Two roundings of n / d to the nearest integer can differ only on an exact half, where
      the second one went down. */
  lemma NearestDifferOnlyOnTie(n: int, d: int, u: int, e: int)
    requires d > 0
    requires 2 * (d * u) - d <= 2 * n < 2 * (d * u) + d
    requires 2 * (d * e) - d <= 2 * n <= 2 * (d * e) + d
    ensures u != e ==> 2 * n == 2 * (d * e) + d
  {
    if u > e {
      MulStep(d, e, u);
    } else if u < e {
      MulStep(d, u, e);
      assert false;
    }
  }

  lemma MulStep(d: int, a: int, b: int)
    requires d >= 0 && a < b
    ensures d * a + d <= d * b
  {
    MulMono(d, a + 1, b);
    assert d * (a + 1) == d * a + d;
  }

  /** Off the halfway points the two roundings agree; they differ only on exact halves. */
  lemma RoundingsAgreeOffTies(n: int, d: int)
    requires d > 0
    ensures RoundHalfUp(n, d) != RoundHalfEven(n, d) ==>
      2 * n == 2 * (d * RoundHalfEven(n, d)) + d
  {
    NearestDifferOnlyOnTie(n, d, RoundHalfUp(n, d), RoundHalfEven(n, d));
  }

  lemma MulMono(d: int, a: int, b: int)
    requires d >= 0 && a <= b
    ensures d * a <= d * b
  {
    assert d * b - d * a == d * (b - a);
  }

  // ------------------------------------------------------------------
  // The JavaScript split (earningsCalculator.ts:46-56, create-booking/index.ts:130-132)
  // ------------------------------------------------------------------

  /** `calculateCommission(amount, rate)`: amount * rate / 100 rounded half-up to whole paise. */
  function CommissionJs(amount: Paise, rate: Rate): (c: Paise)
    ensures 2 * FullRate * c - FullRate <= 2 * (amount * rate) < 2 * FullRate * c + FullRate
  {
    RoundHalfUp(amount * rate, FullRate)
  }

  /** `calculateNetAmount(amount, rate)` of earningsCalculator.ts: the amount less its commission. */
  function NetAmountJs(amount: Paise, rate: Rate): (n: Paise)
    ensures n + CommissionJs(amount, rate) == amount
  {
    amount - CommissionJs(amount, rate)
  }

  /** For a non-negative amount and a rate from 0% to 100%, the commission lies in [0, amount]. */
  lemma CommissionJsBounds(amount: Paise, rate: Rate)
    requires amount >= 0 && 0 <= rate <= FullRate
    ensures 0 <= CommissionJs(amount, rate) <= amount
    ensures 0 <= NetAmountJs(amount, rate) <= amount
  {
    MulMono(amount, 0, rate);
    MulMono(amount, rate, FullRate);
  }

  /** The split of a booking amount: what the platform keeps and what the vendor gets. */
  datatype Split = Split(total: Paise, commission: Paise, vendor: Paise)

  /** create-booking/index.ts:130-132: `vendorAmount = Math.round((total - commission) * 100) / 100`,
      where the difference is already a whole number of paise. */
  function SplitJs(price: Paise, rate: Rate): (s: Split)
    ensures s.total == price
    ensures s.commission + s.vendor == s.total
    ensures s.commission == CommissionJs(price, rate)
  {
    var c := CommissionJs(price, rate);
    Split(price, c, RoundHalfUp(price - c, 1))
  }

  // ------------------------------------------------------------------
  // The Python split (utils.py:29-39)
  // ------------------------------------------------------------------

  /** `round(total * rate / 100, 2)` on the exact decimal value. */
  function CommissionPy(amount: Paise, rate: Rate): (c: Paise)
    ensures 2 * FullRate * c - FullRate <= 2 * (amount * rate) <= 2 * FullRate * c + FullRate
  {
    RoundHalfEven(amount * rate, FullRate)
  }

  /** `calculate_commission(total, rate)`: vendor amount is `round(total - commission, 2)`. */
  function SplitPy(total: Paise, rate: Rate): (s: Split)
    ensures s.total == total
    ensures s.commission + s.vendor == s.total
    ensures s.commission == CommissionPy(total, rate)
  {
    var c := CommissionPy(total, rate);
    Split(total, c, RoundHalfEven(total - c, 1))
  }

  /** The Python commission obeys the same bounds as the JavaScript one. */
  lemma CommissionPyBounds(amount: Paise, rate: Rate)
    requires amount >= 0 && 0 <= rate <= FullRate
    ensures 0 <= CommissionPy(amount, rate) <= amount
    ensures 0 <= SplitPy(amount, rate).vendor <= amount
  {
    MulMono(amount, 0, rate);
    MulMono(amount, rate, FullRate);
  }

  /** Both splits agree unless the exact commission ends in exactly half a paisa. */
  lemma SplitsAgreeOffTies(total: Paise, rate: Rate)
    requires (total * rate) % FullRate != FullRate / 2
    ensures SplitJs(total, rate) == SplitPy(total, rate)
  {
    var n := total * rate;
    RoundingsAgreeOffTies(n, FullRate);
  }

  /** A booking of 30 paise at 15% has an exact commission of 4.5 paise:
      the JavaScript side keeps 5 paise, the Python side 4. */
  lemma SplitsDifferOnTie()
    ensures SplitJs(30, 1500) == Split(30, 5, 25)
    ensures SplitPy(30, 1500) == Split(30, 4, 26)
  {
  }

  // ------------------------------------------------------------------
  // marketplace.types.ts:431-434: the unrounded net amount
  // ------------------------------------------------------------------

  /** `gross - gross * rate / 100`, the rate in percent, with no rounding at all. */
  function NetAmountExact(gross: real, ratePercent: real): (n: real)
    ensures ratePercent == 0.0 ==> n == gross
    ensures ratePercent == 100.0 ==> n == 0.0
    ensures gross >= 0.0 && 0.0 <= ratePercent <= 100.0 ==> 0.0 <= n <= gross
  {
    gross - gross * ratePercent / 100.0
  }

  /** The rounded net amount of earningsCalculator.ts stays within half a paisa of the exact one. */
  lemma NetAmountJsNearExact(amount: Paise, rate: Rate)
    ensures -0.5 <= (NetAmountJs(amount, rate) as real) - NetAmountExact(amount as real, rate as real / 100.0) <= 0.5
  {
    var c := CommissionJs(amount, rate);
    var exactC: real := (amount as real) * (rate as real) / 10000.0;
    assert (amount * rate) as real == (amount as real) * (rate as real);
    assert NetAmountExact(amount as real, rate as real / 100.0) == amount as real - exactC;
    assert -0.5 <= c as real - exactC <= 0.5 by {
      assert (2 * FullRate * c - FullRate) as real <= (2 * (amount * rate)) as real;
      assert (2 * (amount * rate)) as real < (2 * FullRate * c + FullRate) as real;
    }
  }

  // ------------------------------------------------------------------
  // Commission-rate fallbacks
  // ------------------------------------------------------------------

  /** The result of reading the single commission-settings row. */
  datatype RateQuery = QueryFailed | NoSettingsRow | SettingsRow(percentage: Option<Rate>)

  /** `getCommissionRate` (earningsCalculator.ts:61-74) and create-booking/index.ts:129:
      `data?.percentage || 15`; an error yields no data as well. */
  function RateOrDefault(q: RateQuery): (r: Rate)
    ensures r != 0
    ensures r != DefaultRate ==> q == SettingsRow(Some(r))
    ensures q.SettingsRow? && q.percentage.Some? && q.percentage.value != 0 ==> r == q.percentage.value
  {
    match q {
      case SettingsRow(Some(p)) => if p != 0 then p else DefaultRate
      case _ => DefaultRate
    }
  }

  /** `get_commission_rate` (utils.py:13-27): the vendor's own `commission_rate` when the key
      exists (0 included), else the settings row's `default_rate` (15 when that key is missing),
      else 15. */
  function CommissionRatePy(vendor: Option<Vendor>, settings: Option<CommissionSetting>): (r: Rate)
    ensures vendor.Some? && vendor.value.commissionRate.Some? ==> r == vendor.value.commissionRate.value
    ensures (vendor.None? || vendor.value.commissionRate.None?) && settings.Some? && settings.value.rate.Some?
      ==> r == settings.value.rate.value
    ensures (vendor.None? || vendor.value.commissionRate.None?) && (settings.None? || settings.value.rate.None?)
      ==> r == DefaultRate
  {
    if vendor.Some? && vendor.value.commissionRate.Some? then vendor.value.commissionRate.value
    else if settings.Some? then (if settings.value.rate.Some? then settings.value.rate.value else DefaultRate)
    else DefaultRate
  }

  /** The two fallbacks disagree on a stored 0%: Python charges nothing, TypeScript charges 15%. */
  lemma ZeroRateFallbacksDiffer()
    ensures RateOrDefault(SettingsRow(Some(0))) == DefaultRate
    ensures CommissionRatePy(None, Some(CommissionSetting(Some(0)))) == 0
  {
  }
}
