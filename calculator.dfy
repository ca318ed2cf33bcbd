/** The financial figures of `CurrencyMonitor`, over exact reals. Each
    function takes the settings it reads (`usdAmount`, `saleDateRate`,
    `commission` in percent) as parameters. */
module Calculator {
  import opened Wrappers

  /** The fraction of a conversion kept after the commission fee. */
  function CommissionMultiplier(commission: real): (m: real)
    ensures 0.0 <= commission <= 100.0 ==> 0.0 <= m <= 1.0
    ensures m == 0.0 <==> commission == 100.0
    ensures commission > 0.0 ==> m < 1.0
  {
    1.0 - commission / 100.0
  }

  /** The EUR value of the principal at the sale-date rate, without
      commission: the reference every delta is measured against. */
  function BasePrice(usdAmount: real, saleDateRate: real): (b: real)
    ensures usdAmount > 0.0 && saleDateRate > 0.0 ==> b > 0.0
    ensures usdAmount != 0.0 && saleDateRate != 0.0 ==> b != 0.0
  {
    usdAmount * saleDateRate
  }

  /** EUR gained (positive) or lost (negative) by converting the principal
      at `rate`, net of commission, against the commission-free base price.
      Below a 100% commission it is proportional to the distance between
      `rate` and the breakeven rate. */
  function Delta(usdAmount: real, saleDateRate: real, commission: real, rate: real): (d: real)
    ensures commission != 100.0 ==>
              d == usdAmount * CommissionMultiplier(commission)
                   * (rate - BreakevenRate(saleDateRate, commission).value)
  {
    var m := CommissionMultiplier(commission);
    assert commission != 100.0 ==>
             usdAmount * m * (rate - BreakevenRate(saleDateRate, commission).value)
             == usdAmount * rate * m - usdAmount * saleDateRate by {
      if commission != 100.0 {
        var b := BreakevenRate(saleDateRate, commission).value;
        calc {
          usdAmount * m * (rate - b);
          usdAmount * rate * m - usdAmount * (b * m);
          usdAmount * rate * m - usdAmount * saleDateRate;
        }
      }
    }
    usdAmount * rate * m - BasePrice(usdAmount, saleDateRate)
  }

  /** The figure shown as "commission impact": the base price with the
      commission taken off, minus the base price. It is the fee itself,
      negated. */
  function SaleDayDelta(usdAmount: real, saleDateRate: real, commission: real): (d: real)
    ensures d == -(BasePrice(usdAmount, saleDateRate) * commission / 100.0)
  {
    var basePrice := BasePrice(usdAmount, saleDateRate);
    basePrice * CommissionMultiplier(commission) - basePrice
  }

  /** Today's delta as a percentage of the base price. */
  function DeltaPercentage(todayDelta: real, basePrice: real): (p: real)
    requires basePrice != 0.0
    ensures p * basePrice == todayDelta * 100.0
    ensures basePrice > 0.0 ==> (p >= 0.0 <==> todayDelta >= 0.0)
  {
    (todayDelta / basePrice) * 100.0
  }

  /** The rate at which converting with commission gives back exactly the
      base price. With a commission of 100% no rate does: the multiplier is
      zero, and the result is `None` instead of a division by zero. */
  function BreakevenRate(saleDateRate: real, commission: real): (b: Option<real>)
    ensures b.None? <==> commission == 100.0
    ensures b.Some? ==> b.value * CommissionMultiplier(commission) == saleDateRate
  {
    var multiplier := CommissionMultiplier(commission);
    if multiplier == 0.0 then None else Some(saleDateRate / multiplier)
  }

  /** The "Safe to convert" verdict on today's delta. */
  predicate SafeToConvert(todayDelta: real)
  {
    todayDelta >= 0.0
  }

  /** The figures `updateCurrentData` displays for a current rate. */
  datatype Figures = Figures(
    basePrice: real,
    saleDayDelta: real,
    todayDelta: real,
    deltaPercentage: real,
    safeToConvert: bool)

  function CurrentFigures(usdAmount: real, saleDateRate: real, commission: real, currentRate: real): (f: Figures)
    requires usdAmount != 0.0 && saleDateRate != 0.0
    ensures f.basePrice == BasePrice(usdAmount, saleDateRate)
    ensures f.todayDelta == Delta(usdAmount, saleDateRate, commission, currentRate)
    ensures f.safeToConvert == SafeToConvert(f.todayDelta)
    ensures f.saleDayDelta == Delta(usdAmount, saleDateRate, commission, saleDateRate)
    ensures f.deltaPercentage * f.basePrice == f.todayDelta * 100.0
    ensures usdAmount > 0.0 && commission < 100.0 ==>
              (f.safeToConvert <==> currentRate >= BreakevenRate(saleDateRate, commission).value)
  {
    var basePrice := BasePrice(usdAmount, saleDateRate);
    var saleDayDelta := SaleDayDelta(usdAmount, saleDateRate, commission);
    var todayDelta := Delta(usdAmount, saleDateRate, commission, currentRate);
    SaleDayDeltaIsDeltaAtSaleRate(usdAmount, saleDateRate, commission);
    assert usdAmount > 0.0 && commission < 100.0 ==>
             (SafeToConvert(todayDelta) <==> currentRate >= BreakevenRate(saleDateRate, commission).value) by {
      if usdAmount > 0.0 && commission < 100.0 {
        SafeIffAtLeastBreakeven(usdAmount, saleDateRate, commission, currentRate);
      }
    }
    Figures(basePrice, saleDayDelta, todayDelta, DeltaPercentage(todayDelta, basePrice),
            SafeToConvert(todayDelta))
  }

  /** The sale-day delta is the delta of converting at the sale-date rate. */
  lemma SaleDayDeltaIsDeltaAtSaleRate(usdAmount: real, saleDateRate: real, commission: real)
    ensures SaleDayDelta(usdAmount, saleDateRate, commission)
            == Delta(usdAmount, saleDateRate, commission, saleDateRate)
  {
    var m := CommissionMultiplier(commission);
    assert usdAmount * saleDateRate * m == BasePrice(usdAmount, saleDateRate) * m;
  }

  /** Commission never helps on the sale day: the sale-day delta is at most
      zero, and strictly negative once a positive fee is charged. */
  lemma SaleDayDeltaSign(usdAmount: real, saleDateRate: real, commission: real)
    requires usdAmount > 0.0 && saleDateRate > 0.0 && commission >= 0.0
    ensures SaleDayDelta(usdAmount, saleDateRate, commission) <= 0.0
    ensures commission > 0.0 ==> SaleDayDelta(usdAmount, saleDateRate, commission) < 0.0
  {
    var b := BasePrice(usdAmount, saleDateRate);
    assert b * commission >= 0.0;
    assert commission > 0.0 ==> b * commission > 0.0;
  }

  /** Converting at the breakeven rate gains and loses nothing. */
  lemma DeltaZeroAtBreakeven(usdAmount: real, saleDateRate: real, commission: real)
    requires commission != 100.0
    ensures Delta(usdAmount, saleDateRate, commission,
                  BreakevenRate(saleDateRate, commission).value) == 0.0
  {
  }

  /** For a positive principal and a commission below 100%, the delta is
      non-negative exactly when the rate reaches the breakeven rate. */
  lemma SafeIffAtLeastBreakeven(usdAmount: real, saleDateRate: real, commission: real, rate: real)
    requires usdAmount > 0.0 && commission < 100.0
    ensures SafeToConvert(Delta(usdAmount, saleDateRate, commission, rate))
            <==> rate >= BreakevenRate(saleDateRate, commission).value
  {
    var k := usdAmount * CommissionMultiplier(commission);
    var b := BreakevenRate(saleDateRate, commission).value;
    assert k > 0.0;
    if rate >= b {
      assert k * (rate - b) >= 0.0;
    } else {
      assert k * (rate - b) < 0.0;
    }
  }

  /** For a positive principal and a commission below 100%, a better rate
      always gives a larger delta. */
  lemma DeltaStrictlyIncreasing(usdAmount: real, saleDateRate: real, commission: real, r1: real, r2: real)
    requires usdAmount > 0.0 && commission < 100.0 && r1 < r2
    ensures Delta(usdAmount, saleDateRate, commission, r1) < Delta(usdAmount, saleDateRate, commission, r2)
  {
    var k := usdAmount * CommissionMultiplier(commission);
    assert k > 0.0;
    assert k * r1 < k * r2;
    assert usdAmount * r1 * CommissionMultiplier(commission) == k * r1;
    assert usdAmount * r2 * CommissionMultiplier(commission) == k * r2;
  }

  /** The worked example: 1000 USD sold at 0.92 with a 2% commission, and a
      current rate of 0.95, where 1000 × 0.95 × 0.98 − 920 = 11. */
  lemma WorkedExample()
    ensures BasePrice(1000.0, 0.92) == 920.0
    ensures SaleDayDelta(1000.0, 0.92, 2.0) == -18.4
    ensures Delta(1000.0, 0.92, 2.0, 0.95) == 11.0
    ensures CurrentFigures(1000.0, 0.92, 2.0, 0.95).safeToConvert
  {
  }
}
