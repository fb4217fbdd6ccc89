/**
 Per-loan Basel quantities: the risk-weight tier of a probability of default
 (PD), the loss given default (LGD), the exposure at default (EAD) recovered
 from the original loan table, risk-weighted assets (RWA) and expected loss
 (EL). The tiering is the repository's own simplified four-band scheme.
 */
module RiskWeights {
  import opened Common
  import opened Tables

  /** Inclusive upper PD bounds of the three lower weight tiers. */
  const TierUpperBounds: seq<real> := [0.05, 0.10, 0.30]

  /** The weight of each tier, lowest tier first. */
  const TierWeights: seq<real> := [0.5, 0.75, 1.0, 1.5]

  /** Number of entries of `bounds` that lie strictly below `x`. */
  function CountBelow(bounds: seq<real>, x: real): (n: nat)
    ensures n <= |bounds|
  {
    if |bounds| == 0 then 0
    else (if bounds[0] < x then 1 else 0) + CountBelow(bounds[1..], x)
  }

  lemma {:induction false} CountBelowMonotone(bounds: seq<real>, x: real, y: real)
    requires x <= y
    ensures CountBelow(bounds, x) <= CountBelow(bounds, y)
    decreases |bounds|
  {
    if |bounds| > 0 {
      CountBelowMonotone(bounds[1..], x, y);
    }
  }

  /**
   The tier a PD falls in, defined independently of the weight function:
   the number of tier bounds the PD exceeds. A PD equal to a bound does not
   exceed it, so it stays in the lower tier.
   */
  function TierIndex(pd: real): (i: nat)
    ensures i < |TierWeights|
  {
    CountBelow(TierUpperBounds, pd)
  }

  /** The tier index of a PD, band by band. */
  lemma TierIndexBands(pd: real)
    ensures pd <= 0.05 ==> TierIndex(pd) == 0
    ensures 0.05 < pd <= 0.10 ==> TierIndex(pd) == 1
    ensures 0.10 < pd <= 0.30 ==> TierIndex(pd) == 2
    ensures 0.30 < pd ==> TierIndex(pd) == 3
  {
    var b := TierUpperBounds;
    assert b[1..] == [0.10, 0.30] && b[1..][1..] == [0.30] && b[1..][1..][1..] == [];
    var above30 := if 0.30 < pd then 1 else 0;
    assert CountBelow(b[1..][1..], pd) == above30;
    var above10 := if 0.10 < pd then 1 else 0;
    assert CountBelow(b[1..], pd) == above10 + above30;
    assert TierIndex(pd) == (if 0.05 < pd then 1 else 0) + above10 + above30;
  }

  /**
   The risk weight of a PD. PD outside [0, 1] is not rejected: a negative PD
   falls in the lowest tier and a PD above 1 in the highest.
   */
  function AssignRiskWeight(pd: real): (w: real)
    ensures w == TierWeights[TierIndex(pd)]
    ensures w in TierWeights
  {
    TierIndexBands(pd);
    if pd <= 0.05 then 0.5
    else if pd <= 0.10 then 0.75
    else if pd <= 0.30 then 1.0
    else 1.5
  }

  /** A higher PD never gets a lower weight. */
  lemma {:induction false} RiskWeightMonotone(p: real, q: real)
    requires p <= q
    ensures AssignRiskWeight(p) <= AssignRiskWeight(q)
  {
    CountBelowMonotone(TierUpperBounds, p, q);
    assert TierWeights[TierIndex(p)] <= TierWeights[TierIndex(q)];
  }

  /** Each boundary PD resolves to the lower of its two neighbouring tiers. */
  lemma RiskWeightBoundaries()
    ensures AssignRiskWeight(0.05) == 0.5 && TierIndex(0.05) == 0
    ensures AssignRiskWeight(0.10) == 0.75 && TierIndex(0.10) == 1
    ensures AssignRiskWeight(0.30) == 1.0 && TierIndex(0.30) == 2
  {
  }

  /** There is no range validation: out-of-range PDs still get a weight. */
  lemma RiskWeightOutOfRange(pd: real)
    ensures pd < 0.0 ==> AssignRiskWeight(pd) == 0.5
    ensures pd > 1.0 ==> AssignRiskWeight(pd) == 1.5
  {
  }

  /** The weight of every PD of a column, in order. */
  function AssignRiskWeights(pds: seq<real>): (ws: seq<real>)
    ensures |ws| == |pds|
    ensures forall i :: 0 <= i < |pds| ==> ws[i] == AssignRiskWeight(pds[i])
  {
    seq(|pds|, i requires 0 <= i < |pds| => AssignRiskWeight(pds[i]))
  }

  /** Industry-average loss given default. */
  const BaseLgd: real := 0.45

  /** Reduction factor applied to the LGD of a homeowner's loan. */
  const HomeownerFactor: real := 0.8

  /** The one-hot column marking loans whose borrower owns a home. */
  const HomeOwnershipColumn: string := "home_ownership_OWN"

  /**
   LGD per loan: the base LGD, reduced by the homeowner factor for rows whose
   home-ownership flag equals 1. Without the flag column every row gets the
   base LGD.
   */
  function EstimateLgd(loans: Frame): (lgd: seq<real>)
    requires loans.Valid()
    ensures |lgd| == loans.Rows()
    ensures forall i :: 0 <= i < |lgd| ==> lgd[i] == 0.36 || lgd[i] == 0.45
    ensures forall i :: 0 <= i < |lgd| ==>
      (lgd[i] == 0.36 <==>
         HomeOwnershipColumn in loans.columns && loans.columns[HomeOwnershipColumn][i] == 1.0)
  {
    if HomeOwnershipColumn in loans.columns then
      var owns := loans.columns[HomeOwnershipColumn];
      seq(|owns|, i requires 0 <= i < |owns| =>
        if owns[i] == 1.0 then BaseLgd * HomeownerFactor else BaseLgd)
    else
      seq(loans.Rows(), i => BaseLgd)
  }

  /** Every LGD lies between the homeowner and the base value. */
  lemma LgdBounds(loans: Frame, i: nat)
    requires loans.Valid() && i < loans.Rows()
    ensures 0.36 <= EstimateLgd(loans)[i] <= 0.45
  {
  }

  /** The column of the original table holding each loan's principal. */
  const LoanAmountColumn: string := "loan_amnt"

  /**
   EAD per loan: the principal recorded in the original table under the same
   row label. The lookup fails, as a label lookup on a table does, when the
   amount column is missing or some label is not in the original table.
   */
  function CalculateEad(loans: Frame, original: Frame): (ead: Option<seq<real>>)
    requires original.Valid()
    ensures ead.Some? <==>
      LoanAmountColumn in original.columns
      && forall i :: 0 <= i < |loans.index| ==> loans.index[i] in original.index
    ensures ead.Some? ==> |ead.value| == |loans.index|
    ensures ead.Some? ==> forall i :: 0 <= i < |loans.index| ==>
      exists j :: 0 <= j < |original.index| && original.index[j] == loans.index[i]
        && ead.value[i] == original.columns[LoanAmountColumn][j]
  {
    if LoanAmountColumn in original.columns
       && forall i :: 0 <= i < |loans.index| ==> loans.index[i] in original.index
    then
      var amounts := original.columns[LoanAmountColumn];
      Some(seq(|loans.index|, i requires 0 <= i < |loans.index| =>
        amounts[Position(original.index, loans.index[i])]))
    else
      None
  }

  /** RWA per loan: exposure times risk weight. */
  function CalculateRwa(ead: seq<real>, weights: seq<real>): (rwa: seq<real>)
    requires |ead| == |weights|
    ensures |rwa| == |ead|
    ensures forall i :: 0 <= i < |ead| ==> rwa[i] == ead[i] * weights[i]
  {
    Products(ead, weights)
  }

  /**
   With non-negative exposures and weights from the tiering, each loan's RWA
   lies between half and one and a half times its exposure, and so does the
   portfolio total.
   */
  lemma {:induction false} RwaBounds(ead: seq<real>, pds: seq<real>)
    requires |ead| == |pds|
    requires forall i :: 0 <= i < |ead| ==> ead[i] >= 0.0
    ensures forall i :: 0 <= i < |ead| ==>
      0.5 * ead[i] <= CalculateRwa(ead, AssignRiskWeights(pds))[i] <= 1.5 * ead[i]
    ensures 0.5 * Sum(ead) <= Sum(CalculateRwa(ead, AssignRiskWeights(pds))) <= 1.5 * Sum(ead)
  {
    var rwa := CalculateRwa(ead, AssignRiskWeights(pds));
    var low := seq(|ead|, i requires 0 <= i < |ead| => 0.5 * ead[i]);
    var high := seq(|ead|, i requires 0 <= i < |ead| => 1.5 * ead[i]);
    SumScale(ead, low, 0.5);
    SumScale(ead, high, 1.5);
    SumMonotone(low, rwa);
    SumMonotone(rwa, high);
  }

  /** EL per loan: PD times LGD times EAD. */
  function ExpectedLoss(pds: seq<real>, lgd: seq<real>, ead: seq<real>): (el: seq<real>)
    requires |pds| == |lgd| == |ead|
    ensures |el| == |pds|
    ensures forall i :: 0 <= i < |pds| ==> el[i] == pds[i] * lgd[i] * ead[i]
  {
    seq(|pds|, i requires 0 <= i < |pds| => pds[i] * lgd[i] * ead[i])
  }

  lemma LossWithinLgdShare(pd: real, lgd: real, ead: real)
    requires 0.0 <= pd <= 1.0 && 0.0 <= lgd <= BaseLgd && ead >= 0.0
    ensures 0.0 <= pd * lgd * ead <= BaseLgd * ead
  {
    var share := pd * lgd;
    MulMonotone(0.0, pd, lgd);
    MulMonotone(pd, 1.0, lgd);
    assert 0.0 <= share <= lgd;
    MulMonotone(0.0, share, ead);
    MulMonotone(share, lgd, ead);
    MulMonotone(lgd, BaseLgd, ead);
  }

  /**
   For PDs in [0, 1], LGDs from the estimate and non-negative exposures,
   expected loss is non-negative and never exceeds the base LGD share of
   exposure, per loan and in total.
   */
  lemma {:induction false} ExpectedLossBounds(pds: seq<real>, loans: Frame, ead: seq<real>)
    requires loans.Valid()
    requires |pds| == |ead| == loans.Rows()
    requires forall i :: 0 <= i < |pds| ==> 0.0 <= pds[i] <= 1.0
    requires forall i :: 0 <= i < |ead| ==> ead[i] >= 0.0
    ensures forall i :: 0 <= i < |pds| ==>
      0.0 <= ExpectedLoss(pds, EstimateLgd(loans), ead)[i] <= BaseLgd * ead[i]
    ensures 0.0 <= Sum(ExpectedLoss(pds, EstimateLgd(loans), ead)) <= BaseLgd * Sum(ead)
  {
    var lgd := EstimateLgd(loans);
    var el := ExpectedLoss(pds, lgd, ead);
    forall i | 0 <= i < |pds|
      ensures 0.0 <= el[i] <= BaseLgd * ead[i]
    {
      var p, l, x := pds[i], lgd[i], ead[i];
      assert 0.0 <= l <= BaseLgd;
      LossWithinLgdShare(p, l, x);
      assert el[i] == p * l * x;
    }
    var cap := seq(|ead|, i requires 0 <= i < |ead| => BaseLgd * ead[i]);
    SumNonNegative(el);
    SumScale(ead, cap, BaseLgd);
    SumMonotone(el, cap);
  }
}
