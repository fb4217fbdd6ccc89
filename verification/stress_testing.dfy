/**
 The stress engine: a named scenario scales every PD by a fixed multiplier,
 capped at 1; expected loss, risk weight and RWA are then recomputed from the
 stressed PD while LGD and EAD stay as they were. A summary compares the
 aggregate figures of two scenarios as percent changes.
 */
module StressTesting {
  import opened Common
  import opened Tables
  import opened RiskWeights

  /** PD multipliers of the named stress scenarios. */
  const Scenarios: map<string, real> := map["mild" := 1.5, "moderate" := 2.0, "severe" := 3.0]

  /**
   The PD multiplier of a scenario. A name outside the scenario table,
   "normal" included, is not an error: it leaves PD unscaled.
   */
  function ScenarioMultiplier(scenario: string): (m: real)
    ensures scenario == "mild" ==> m == 1.5
    ensures scenario == "moderate" ==> m == 2.0
    ensures scenario == "severe" ==> m == 3.0
    ensures m >= 1.0
    ensures m == 1.0 <==> scenario !in {"mild", "moderate", "severe"}
  {
    if scenario in Scenarios then Scenarios[scenario] else 1.0
  }

  /** One stressed PD: the scaled PD, capped at 1. */
  function StressedPd(pd: real, scenario: string): (s: real)
    ensures s <= 1.0
    ensures s <= pd * ScenarioMultiplier(scenario)
    ensures s == 1.0 || s == pd * ScenarioMultiplier(scenario)
  {
    Min(pd * ScenarioMultiplier(scenario), 1.0)
  }

  /** The stressed PD column: one capped, scaled PD per loan, in order. */
  function ApplyStressScenario(basePd: seq<real>, scenario: string): (stressed: seq<real>)
    ensures |stressed| == |basePd|
    ensures forall i :: 0 <= i < |basePd| ==> stressed[i] <= 1.0
    ensures forall i :: 0 <= i < |basePd| ==> stressed[i] == StressedPd(basePd[i], scenario)
  {
    seq(|basePd|, i requires 0 <= i < |basePd| => StressedPd(basePd[i], scenario))
  }

  /** The scenario applied when the caller names none. */
  const DefaultScenario: string := "moderate"

  /**
   The stressed PD column under the default scenario: every PD doubled and
   capped at 1, not the unscaled fallback of an unknown name.
   */
  function ApplyDefaultStressScenario(basePd: seq<real>): (stressed: seq<real>)
    ensures |stressed| == |basePd|
    ensures forall i :: 0 <= i < |basePd| ==> stressed[i] == Min(2.0 * basePd[i], 1.0)
  {
    ApplyStressScenario(basePd, DefaultScenario)
  }

  /** An unknown scenario, "normal" among them, leaves PDs in [0, 1] unchanged. */
  lemma UnknownScenarioIsIdentity(basePd: seq<real>, scenario: string)
    requires scenario !in {"mild", "moderate", "severe"}
    requires forall i :: 0 <= i < |basePd| ==> 0.0 <= basePd[i] <= 1.0
    ensures ApplyStressScenario(basePd, scenario) == basePd
  {
  }

  /** Above 1, the cap brings any PD down to 1, whatever the scenario. */
  lemma StressCapsLargePd(pd: real, scenario: string)
    requires pd > 1.0
    ensures StressedPd(pd, scenario) == 1.0
  {
  }

  /** Stress never pushes a non-negative PD below the smaller of itself and 1. */
  lemma StressNotBelowBase(pd: real, scenario: string)
    requires pd >= 0.0
    ensures StressedPd(pd, scenario) >= Min(pd, 1.0)
  {
  }

  /**
   Harsher scenarios give higher PDs: mild, moderate and severe are ordered,
   and two of them agree only at PD 0 or where the milder one is already
   capped at 1.
   */
  lemma ScenarioOrdering(pd: real)
    requires pd >= 0.0
    ensures StressedPd(pd, "mild") <= StressedPd(pd, "moderate") <= StressedPd(pd, "severe")
    ensures StressedPd(pd, "mild") == StressedPd(pd, "moderate")
      <==> pd == 0.0 || StressedPd(pd, "mild") == 1.0
    ensures StressedPd(pd, "moderate") == StressedPd(pd, "severe")
      <==> pd == 0.0 || StressedPd(pd, "moderate") == 1.0
  {
  }

  /** Stress never lowers a loan's risk weight. */
  lemma StressedWeightNotLower(pd: real, scenario: string)
    ensures AssignRiskWeight(StressedPd(pd, scenario)) >= AssignRiskWeight(pd)
  {
    var m := ScenarioMultiplier(scenario);
    if pd > 0.05 {
      assert pd * m >= pd;
      RiskWeightMonotone(Min(pd, 1.0), StressedPd(pd, scenario));
    }
  }

  /**
   A loan with PD 0.04, LGD 0.45 and EAD 10,000 under the moderate scenario:
   its PD doubles to 0.08, which moves it from the 0.5 to the 0.75 tier, with
   expected loss 360 and RWA 7,500.
   */
  lemma ModerateScenarioExample()
    ensures ApplyStressScenario([0.04], "moderate") == [0.08]
    ensures AssignRiskWeights([0.04]) == [0.5] && AssignRiskWeights([0.08]) == [0.75]
    ensures ExpectedLoss([0.08], [0.45], [10000.0]) == [360.0]
    ensures CalculateRwa([10000.0], [0.75]) == [7500.0]
  {
  }

  /** A PD of 0.5 under the severe scenario hits the cap and the top tier. */
  lemma SevereScenarioExample()
    ensures ApplyStressScenario([0.5], "severe") == [1.0]
    ensures AssignRiskWeight(1.0) == 1.5
  {
  }

  const StressedPdColumn: string := "Stressed_PD"
  const StressedElColumn: string := "Stressed_EL"
  const StressedWeightColumn: string := "Stressed_RiskWeight"
  const StressedRwaColumn: string := "Stressed_RWA"

  /** The four columns the stress engine adds to a loan table. */
  const StressColumns: set<string> :=
    {StressedPdColumn, StressedElColumn, StressedWeightColumn, StressedRwaColumn}

  /**
   A copy of the loan table with the four stressed columns added (replacing
   columns of the same name). Stressed EL and RWA use the given LGD and EAD
   unchanged; only PD is stressed.
   */
  function CalculateStressMetrics(loans: Frame, basePd: seq<real>, lgd: seq<real>,
                                  ead: seq<real>, scenario: string): (r: Frame)
    requires loans.Valid()
    requires |basePd| == |lgd| == |ead| == loans.Rows()
    ensures r.Valid() && r.index == loans.index
    ensures r.columns.Keys == loans.columns.Keys + StressColumns
    ensures forall c :: c in loans.columns && c !in StressColumns ==> r.columns[c] == loans.columns[c]
    ensures r.columns[StressedPdColumn] == ApplyStressScenario(basePd, scenario)
    ensures r.columns[StressedElColumn] == ExpectedLoss(r.columns[StressedPdColumn], lgd, ead)
    ensures r.columns[StressedWeightColumn] == AssignRiskWeights(r.columns[StressedPdColumn])
    ensures r.columns[StressedRwaColumn] == CalculateRwa(ead, r.columns[StressedWeightColumn])
  {
    var stressedPd := ApplyStressScenario(basePd, scenario);
    var stressedEl := ExpectedLoss(stressedPd, lgd, ead);
    var stressedWeight := AssignRiskWeights(stressedPd);
    var stressedRwa := CalculateRwa(ead, stressedWeight);
    Frame(loans.index,
          loans.columns[StressedPdColumn := stressedPd]
                       [StressedElColumn := stressedEl]
                       [StressedWeightColumn := stressedWeight]
                       [StressedRwaColumn := stressedRwa])
  }

  /**
   With non-negative exposures, the stressed RWA total (the sum of the
   Stressed_RWA column) is at least the unstressed RWA total.
   */
  lemma {:induction false} StressedRwaNotLower(basePd: seq<real>, ead: seq<real>, scenario: string)
    requires |basePd| == |ead|
    requires forall i :: 0 <= i < |ead| ==> ead[i] >= 0.0
    ensures Sum(CalculateRwa(ead, AssignRiskWeights(ApplyStressScenario(basePd, scenario))))
      >= Sum(CalculateRwa(ead, AssignRiskWeights(basePd)))
  {
    var baseRwa := CalculateRwa(ead, AssignRiskWeights(basePd));
    var stressedRwa := CalculateRwa(ead, AssignRiskWeights(ApplyStressScenario(basePd, scenario)));
    forall i | 0 <= i < |ead|
      ensures baseRwa[i] <= stressedRwa[i]
    {
      StressedWeightNotLower(basePd[i], scenario);
    }
    SumMonotone(baseRwa, stressedRwa);
  }

  lemma LossMonotoneInPd(p: real, q: real, lgd: real, ead: real)
    requires p <= q && lgd >= 0.0 && ead >= 0.0
    ensures p * lgd * ead <= q * lgd * ead
  {
    assert p * lgd <= q * lgd;
  }

  /**
   With PDs in [0, 1] and non-negative LGDs and exposures, the stressed
   expected-loss total (the sum of the Stressed_EL column) is at least the
   unstressed one.
   */
  lemma {:induction false} StressedLossNotLower(basePd: seq<real>, lgd: seq<real>, ead: seq<real>,
                                                scenario: string)
    requires |basePd| == |lgd| == |ead|
    requires forall i :: 0 <= i < |basePd| ==> 0.0 <= basePd[i] <= 1.0
    requires forall i :: 0 <= i < |lgd| ==> lgd[i] >= 0.0
    requires forall i :: 0 <= i < |ead| ==> ead[i] >= 0.0
    ensures Sum(ExpectedLoss(ApplyStressScenario(basePd, scenario), lgd, ead))
      >= Sum(ExpectedLoss(basePd, lgd, ead))
  {
    var stressedPd := ApplyStressScenario(basePd, scenario);
    var baseEl := ExpectedLoss(basePd, lgd, ead);
    var stressedEl := ExpectedLoss(stressedPd, lgd, ead);
    forall i | 0 <= i < |ead|
      ensures baseEl[i] <= stressedEl[i]
    {
      StressNotBelowBase(basePd[i], scenario);
      LossMonotoneInPd(basePd[i], stressedPd[i], lgd[i], ead[i]);
    }
    SumMonotone(baseEl, stressedEl);
  }

  /** Aggregate figures of one scenario, as the stress summary reads them. */
  datatype ScenarioMetrics = ScenarioMetrics(
    exposure: real,
    rwa: real,
    tier1Capital: real,
    totalCapital: real,
    capitalWithBuffer: real)
  {
    /** The five figures in the summary's row order. */
    function Values(): (vs: seq<real>)
      ensures |vs| == |MetricNames|
    {
      [exposure, rwa, tier1Capital, totalCapital, capitalWithBuffer]
    }
  }

  /** Row labels of the stress summary, in order. */
  const MetricNames: seq<string> :=
    ["Total Exposure", "RWA", "Tier 1 Capital", "Total Capital", "With Buffer"]

  /** One row of the stress summary. */
  datatype SummaryRow = SummaryRow(metric: string, normal: real, stressed: real, changePct: Option<real>)

  /**
   The change from `normal` to `stressed` in percent of `normal`; undefined
   when `normal` is zero, since the quotient has no value there.
   */
  function PercentChange(normal: real, stressed: real): (c: Option<real>)
    ensures c.Some? <==> normal != 0.0
    ensures c.Some? ==> normal + normal * c.value / 100.0 == stressed
    ensures c.Some? && normal > 0.0 ==> (c.value >= 0.0 <==> stressed >= normal)
  {
    if normal == 0.0 then None
    else
      var c := (stressed - normal) / normal * 100.0;
      assert normal * c / 100.0 == stressed - normal;
      Some(c)
  }

  /**
   The side-by-side summary: five rows in fixed order, each with the normal
   figure, the stressed figure and the percent change between them.
   */
  function SummarizeStressResults(normal: ScenarioMetrics, stressed: ScenarioMetrics): (rows: seq<SummaryRow>)
    ensures |rows| == |MetricNames|
    ensures forall i :: 0 <= i < |rows| ==>
      && rows[i].metric == MetricNames[i]
      && rows[i].normal == normal.Values()[i]
      && rows[i].stressed == stressed.Values()[i]
    ensures forall i :: 0 <= i < |rows| ==>
      (rows[i].changePct.Some? <==> rows[i].normal != 0.0)
      && (rows[i].changePct.Some? ==>
            rows[i].normal + rows[i].normal * rows[i].changePct.value / 100.0 == rows[i].stressed)
  {
    var ns, ss := normal.Values(), stressed.Values();
    seq(|MetricNames|, i requires 0 <= i < |MetricNames| =>
      SummaryRow(MetricNames[i], ns[i], ss[i], PercentChange(ns[i], ss[i])))
  }
}
