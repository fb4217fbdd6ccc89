/**
 Minimum regulatory capital as fixed fractions of risk-weighted assets:
 Tier 1 at 6% and total capital at 8% (paragraph 50 of the Basel III
 framework text, BCBS 189), plus the 2.5% capital conservation buffer
 (paragraph 129 of the same text). The ratios are parameters with these
 defaults.
 */
module CapitalRequirements {
  import opened Common

  const DefaultTier1Ratio: real := 0.06
  const DefaultTotalRatio: real := 0.08
  const DefaultConservationBuffer: real := 0.025

  datatype Capital = Capital(tier1Capital: real, totalCapital: real, capitalWithBuffer: real)

  /**
   Capital ratio: available capital per unit of RWA. Undefined when RWA is
   zero, since the quotient has no value there.
   */
  function CalculateCapitalRatio(capital: real, rwa: real): (ratio: Option<real>)
    ensures ratio.Some? <==> rwa != 0.0
    ensures ratio.Some? ==> ratio.value * rwa == capital
  {
    if rwa == 0.0 then None else Some(capital / rwa)
  }

  lemma RatioOfProduct(rwa: real, ratio: real)
    ensures rwa != 0.0 ==> rwa * ratio / rwa == ratio
  {
    if rwa != 0.0 {
      var q := rwa * ratio / rwa;
      assert q * rwa == rwa * ratio;
      assert (q - ratio) * rwa == 0.0;
    }
  }

  /**
   The three capital figures for a portfolio RWA. Each figure taken as a
   ratio of the same RWA gives back the ratio it was computed from, the
   buffer adds exactly `rwa * buffer` on top of total capital, and with
   non-negative RWA and ratios ordered as in the defaults the figures are
   ordered too.
   */
  function CalculateMinimumCapital(rwa: real, tier1Ratio: real, totalRatio: real,
                                   conservationBuffer: real): (c: Capital)
    ensures rwa != 0.0 ==>
      && CalculateCapitalRatio(c.tier1Capital, rwa) == Some(tier1Ratio)
      && CalculateCapitalRatio(c.totalCapital, rwa) == Some(totalRatio)
      && CalculateCapitalRatio(c.capitalWithBuffer, rwa) == Some(totalRatio + conservationBuffer)
    ensures rwa == 0.0 ==> c == Capital(0.0, 0.0, 0.0)
    ensures c.capitalWithBuffer - c.totalCapital == rwa * conservationBuffer
    ensures rwa >= 0.0 && 0.0 <= tier1Ratio <= totalRatio && conservationBuffer >= 0.0 ==>
      0.0 <= c.tier1Capital <= c.totalCapital <= c.capitalWithBuffer
  {
    RatioOfProduct(rwa, tier1Ratio);
    RatioOfProduct(rwa, totalRatio);
    var withBufferRatio := totalRatio + conservationBuffer;
    RatioOfProduct(rwa, withBufferRatio);
    Capital(rwa * tier1Ratio, rwa * totalRatio, rwa * withBufferRatio)
  }

  /**
   The requirements under the default ratios: 6 %, 8 % and 10.5 % of RWA,
   with no capital required for zero RWA.
   */
  function DefaultMinimumCapital(rwa: real): (c: Capital)
    ensures c == CalculateMinimumCapital(rwa, DefaultTier1Ratio, DefaultTotalRatio, DefaultConservationBuffer)
    ensures rwa != 0.0 ==>
      && CalculateCapitalRatio(c.tier1Capital, rwa) == Some(0.06)
      && CalculateCapitalRatio(c.totalCapital, rwa) == Some(0.08)
      && CalculateCapitalRatio(c.capitalWithBuffer, rwa) == Some(0.105)
    ensures rwa >= 0.0 ==> 0.0 <= c.tier1Capital <= c.totalCapital <= c.capitalWithBuffer
  {
    assert 0.0 <= DefaultTier1Ratio <= DefaultTotalRatio && DefaultConservationBuffer >= 0.0;
    CalculateMinimumCapital(rwa, DefaultTier1Ratio, DefaultTotalRatio, DefaultConservationBuffer)
  }

  /** One million of RWA needs 60,000 Tier 1, 80,000 total and 105,000 with buffer. */
  lemma DefaultCapitalExample()
    ensures DefaultMinimumCapital(1000000.0) == Capital(60000.0, 80000.0, 105000.0)
  {
  }

  /** Capital is adequate when it covers the requirement; equality is enough. */
  function CheckCapitalAdequacy(available: real, required: real): (adequate: bool)
    ensures adequate <==> required <= available
  {
    available >= required
  }

  /** Capital adequate for a requirement is adequate for every smaller one. */
  lemma AdequacyMonotone(available: real, required: real, lower: real)
    requires lower <= required
    ensures CheckCapitalAdequacy(available, required) ==> CheckCapitalAdequacy(available, lower)
  {
  }

  /**
   For positive RWA, capital is adequate against the requirement at a given
   ratio exactly when its capital ratio reaches that ratio.
   */
  lemma AdequacyMatchesRatio(available: real, rwa: real, ratio: real)
    requires rwa > 0.0
    ensures CheckCapitalAdequacy(available, rwa * ratio)
      <==> CalculateCapitalRatio(available, rwa).value >= ratio
  {
    var q := available / rwa;
    assert q * rwa == available;
    if q >= ratio {
      assert q * rwa >= ratio * rwa;
    } else {
      assert q * rwa < ratio * rwa;
    }
  }
}
