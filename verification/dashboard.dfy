/**
 Portfolio aggregation behind the risk dashboard: portfolio totals, the
 exposure-weighted average PD, the reporting risk categories (PD bins that
 are open on the left and closed on the right), per-category sums and
 shares, and exposure grouped by risk weight.
 */
module Dashboard {
  import opened Common
  import opened RiskWeights

  // ---------------------------------------------------------------------
  // Portfolio totals
  // ---------------------------------------------------------------------

  /**
   Exposure-weighted average PD: the sum of PD times EAD over the sum of
   EAD. Undefined when the total exposure is zero.
   */
  function WeightedAveragePd(pds: seq<real>, ead: seq<real>): (avg: Option<real>)
    requires |pds| == |ead|
    ensures avg.Some? <==> Sum(ead) != 0.0
    ensures avg.Some? ==> avg.value * Sum(ead) == Sum(Products(pds, ead))
  {
    var total := Sum(ead);
    if total == 0.0 then None else Some(Sum(Products(pds, ead)) / total)
  }

  /**
   With non-negative exposures of positive total and PDs in [0, 1], the
   weighted average PD is itself a probability.
   */
  lemma {:induction false} WeightedAveragePdBounds(pds: seq<real>, ead: seq<real>)
    requires |pds| == |ead|
    requires forall i :: 0 <= i < |ead| ==> ead[i] >= 0.0
    requires forall i :: 0 <= i < |pds| ==> 0.0 <= pds[i] <= 1.0
    requires Sum(ead) > 0.0
    ensures WeightedAveragePd(pds, ead).Some?
    ensures 0.0 <= WeightedAveragePd(pds, ead).value <= 1.0
  {
    var weighted := Products(pds, ead);
    forall i | 0 <= i < |ead|
      ensures 0.0 <= weighted[i] <= ead[i]
    {
      assert pds[i] * ead[i] <= 1.0 * ead[i];
    }
    SumNonNegative(weighted);
    SumMonotone(weighted, ead);
    QuotientBounds(Sum(weighted), Sum(ead));
  }

  lemma QuotientBounds(num: real, den: real)
    requires den > 0.0 && 0.0 <= num <= den
    ensures 0.0 <= num / den <= 1.0
  {
    var q := num / den;
    assert q * den == num;
  }

  /** Two loans: PD 0.02 on 100 and PD 0.10 on 300 average to 0.08. */
  lemma WeightedAveragePdExample()
    ensures WeightedAveragePd([0.02, 0.10], [100.0, 300.0]) == Some(0.08)
  {
    assert [100.0, 300.0][..1] == [100.0] && [100.0][..0] == [];
    assert Sum([100.0, 300.0]) == 400.0;
    assert Products([0.02, 0.10], [100.0, 300.0]) == [2.0, 30.0];
    assert [2.0, 30.0][..1] == [2.0] && [2.0][..0] == [];
    assert Sum([2.0, 30.0]) == 32.0;
  }

  /**
   The portfolio totals in one pass over the rows: exposure, RWA, expected
   loss and the PD-times-exposure sum behind the weighted average PD.
   */
  method PortfolioTotals(pds: seq<real>, el: seq<real>, rwa: seq<real>, ead: seq<real>)
    returns (totalExposure: real, totalRwa: real, totalEl: real, weightedPd: real)
    requires |pds| == |el| == |rwa| == |ead|
    ensures totalExposure == Sum(ead)
    ensures totalRwa == Sum(rwa)
    ensures totalEl == Sum(el)
    ensures weightedPd == Sum(Products(pds, ead))
  {
    totalExposure, totalRwa, totalEl, weightedPd := 0.0, 0.0, 0.0, 0.0;
    var products := Products(pds, ead);
    var i := 0;
    while i < |ead|
      invariant 0 <= i <= |ead|
      invariant totalExposure == Sum(ead[..i])
      invariant totalRwa == Sum(rwa[..i])
      invariant totalEl == Sum(el[..i])
      invariant weightedPd == Sum(products[..i])
    {
      assert ead[..i + 1][..i] == ead[..i];
      assert rwa[..i + 1][..i] == rwa[..i];
      assert el[..i + 1][..i] == el[..i];
      assert products[..i + 1][..i] == products[..i];
      totalExposure := totalExposure + ead[i];
      totalRwa := totalRwa + rwa[i];
      totalEl := totalEl + el[i];
      weightedPd := weightedPd + pds[i] * ead[i];
      i := i + 1;
    }
    assert ead[..i] == ead && rwa[..i] == rwa && el[..i] == el && products[..i] == products;
  }

  // ---------------------------------------------------------------------
  // Binning: left-open, right-closed intervals between sorted edges
  // ---------------------------------------------------------------------

  /** `x` lies in bin `i`, the interval (edges[i], edges[i + 1]]. */
  predicate InBin(edges: seq<real>, i: nat, x: real)
    requires i + 1 < |edges|
  {
    edges[i] < x <= edges[i + 1]
  }

  /** The first bin at or after `from` holding `x`; none if no such bin holds it. */
  function CutFrom(edges: seq<real>, x: real, from: nat): (bin: Option<nat>)
    ensures bin.Some? ==> from <= bin.value && bin.value + 1 < |edges| && InBin(edges, bin.value, x)
    ensures bin.None? ==> forall i: nat :: from <= i && i + 1 < |edges| ==> !InBin(edges, i, x)
    decreases |edges| - from
  {
    if from + 1 >= |edges| then None
    else if edges[from] < x <= edges[from + 1] then Some(from)
    else CutFrom(edges, x, from + 1)
  }

  /** The bin holding `x`, or none when `x` is outside every bin. */
  function Cut(edges: seq<real>, x: real): (bin: Option<nat>)
    ensures bin.Some? ==> bin.value + 1 < |edges| && InBin(edges, bin.value, x)
    ensures bin.None? ==> forall i: nat :: i + 1 < |edges| ==> !InBin(edges, i, x)
  {
    CutFrom(edges, x, 0)
  }

  // ---------------------------------------------------------------------
  // Risk categories
  // ---------------------------------------------------------------------

  /** Reporting bins of PD, defined apart from the weight tiers. */
  const RiskBins: seq<real> := [0.0, 0.05, 0.1, 0.3, 1.0]

  datatype RiskCategory = Low | Medium | High | VeryHigh

  /** Category of each reporting bin, lowest bin first. */
  const CategoryLabels: seq<RiskCategory> := [Low, Medium, High, VeryHigh]

  /**
   The reporting category of a PD. A PD of 0 or below, or above 1, falls
   outside every bin and gets no category.
   */
  function CategoryOf(pd: real): (c: Option<RiskCategory>)
    ensures c == Some(Low) <==> 0.0 < pd <= 0.05
    ensures c == Some(Medium) <==> 0.05 < pd <= 0.1
    ensures c == Some(High) <==> 0.1 < pd <= 0.3
    ensures c == Some(VeryHigh) <==> 0.3 < pd <= 1.0
    ensures c.None? <==> pd <= 0.0 || pd > 1.0
  {
    var bin := Cut(RiskBins, pd);
    assert RiskBins[0] == 0.0 && RiskBins[1] == 0.05 && RiskBins[2] == 0.1;
    assert RiskBins[3] == 0.3 && RiskBins[4] == 1.0;
    if bin.None? then
      assert !InBin(RiskBins, 0, pd) && !InBin(RiskBins, 1, pd);
      assert !InBin(RiskBins, 2, pd) && !InBin(RiskBins, 3, pd);
      None
    else
      Some(CategoryLabels[bin.value])
  }

  /** Position of a category in the reporting order. */
  function CategoryIndex(c: RiskCategory): (i: nat)
    ensures i < |CategoryLabels| && CategoryLabels[i] == c
  {
    match c
    case Low => 0
    case Medium => 1
    case High => 2
    case VeryHigh => 3
  }

  /**
   For a PD in (0, 1] the reporting category and the weight tier agree:
   category i is weight tier i, so Low carries weight 0.5, Medium 0.75, High
   1.0 and Very High 1.5.
   */
  lemma CategoryMatchesWeightTier(pd: real)
    requires 0.0 < pd <= 1.0
    ensures CategoryOf(pd).Some?
    ensures CategoryIndex(CategoryOf(pd).value) == TierIndex(pd)
    ensures TierWeights[CategoryIndex(CategoryOf(pd).value)] == AssignRiskWeight(pd)
  {
    TierIndexBands(pd);
  }

  /** The category of every PD of a column: the working RiskCategory column. */
  function Categorize(pds: seq<real>): (cats: seq<Option<RiskCategory>>)
    ensures |cats| == |pds|
    ensures forall i :: 0 <= i < |pds| ==> cats[i] == CategoryOf(pds[i])
  {
    seq(|pds|, i requires 0 <= i < |pds| => CategoryOf(pds[i]))
  }

  /** Group keys of the four categories, in reporting order. */
  const CategoryKeys: seq<Option<RiskCategory>> := [Some(Low), Some(Medium), Some(High), Some(VeryHigh)]

  /**
   Loans without a category are dropped from the per-category sums: the four
   category sums and the sum over uncategorised loans make up the total.
   */
  lemma CategoryPartition(cats: seq<Option<RiskCategory>>, vals: seq<real>)
    requires |cats| == |vals|
    ensures Sum(GroupSums(cats, vals, CategoryKeys)) + GroupSum(cats, vals, None) == Sum(vals)
  {
    var keys := CategoryKeys + [None];
    forall i | 0 <= i < |cats|
      ensures cats[i] in keys
    {
      match cats[i]
      case None => assert keys[4] == None;
      case Some(c) => assert keys[CategoryIndex(c)] == cats[i];
    }
    GroupPartition(cats, vals, keys);
    var all := GroupSums(cats, vals, keys);
    assert all[..4] == GroupSums(cats, vals, CategoryKeys);
  }

  // ---------------------------------------------------------------------
  // Per-category breakdown and the metrics table
  // ---------------------------------------------------------------------

  /**
   One row of the per-category breakdown: the category's exposure and
   expected loss, its share of total exposure in percent, and its expected
   loss in percent of its own exposure.
   */
  datatype CategoryRow = CategoryRow(
    category: RiskCategory,
    ead: real,
    el: real,
    exposurePct: Option<real>,
    elPctOfExposure: Option<real>)

  /** The exposure column of a breakdown. */
  function RowExposures(rows: seq<CategoryRow>): (eads: seq<real>)
    ensures |eads| == |rows|
    ensures forall i :: 0 <= i < |rows| ==> eads[i] == rows[i].ead
  {
    seq(|rows|, i requires 0 <= i < |rows| => rows[i].ead)
  }

  /**
   The breakdown over all four categories, in reporting order, empty ones
   included. Shares are undefined when the total exposure is zero, and a
   category's loss percentage is undefined when its exposure is zero.
   */
  function RiskSummary(cats: seq<Option<RiskCategory>>, ead: seq<real>, el: seq<real>,
                       totalExposure: real): (rows: seq<CategoryRow>)
    requires |cats| == |ead| == |el|
    ensures |rows| == |CategoryLabels|
    ensures forall i :: 0 <= i < |rows| ==>
      && rows[i].category == CategoryLabels[i]
      && rows[i].ead == GroupSum(cats, ead, Some(CategoryLabels[i]))
      && rows[i].el == GroupSum(cats, el, Some(CategoryLabels[i]))
    ensures forall i :: 0 <= i < |rows| ==>
      && rows[i].exposurePct == Percent(rows[i].ead, totalExposure)
      && rows[i].elPctOfExposure == Percent(rows[i].el, rows[i].ead)
  {
    seq(|CategoryLabels|, i requires 0 <= i < |CategoryLabels| =>
      var c := CategoryLabels[i];
      var categoryEad := GroupSum(cats, ead, Some(c));
      var categoryEl := GroupSum(cats, el, Some(c));
      CategoryRow(c, categoryEad, categoryEl, Percent(categoryEad, totalExposure),
                  Percent(categoryEl, categoryEad)))
  }

  /** Portfolio-level figures of the metrics table. */
  datatype PortfolioMetrics = PortfolioMetrics(
    totalExposure: real,
    totalRwa: real,
    totalEl: real,
    elPctOfExposure: Option<real>,
    weightedAvgPd: Option<real>)

  /**
   The metrics table, the per-category breakdown, and the RiskCategory
   column the table adds to the loans.
   */
  datatype RiskMetricsTable = RiskMetricsTable(
    metrics: PortfolioMetrics,
    summary: seq<CategoryRow>,
    riskCategory: seq<Option<RiskCategory>>)

  function CreateRiskMetricsTable(pds: seq<real>, el: seq<real>, rwa: seq<real>,
                                  ead: seq<real>): (t: RiskMetricsTable)
    requires |pds| == |el| == |rwa| == |ead|
    ensures t.metrics.totalExposure == Sum(ead)
    ensures t.metrics.totalRwa == Sum(rwa)
    ensures t.metrics.totalEl == Sum(el)
    ensures t.metrics.elPctOfExposure == Percent(Sum(el), Sum(ead))
    ensures t.metrics.weightedAvgPd == WeightedAveragePd(pds, ead)
    ensures t.riskCategory == Categorize(pds)
    ensures t.summary == RiskSummary(t.riskCategory, ead, el, Sum(ead))
  {
    var totalExposure := Sum(ead);
    var totalEl := Sum(el);
    var cats := Categorize(pds);
    RiskMetricsTable(
      PortfolioMetrics(totalExposure, Sum(rwa), totalEl, Percent(totalEl, totalExposure),
                       WeightedAveragePd(pds, ead)),
      RiskSummary(cats, ead, el, totalExposure),
      cats)
  }

  /** The exposure shares of a breakdown, when all are defined. */
  function RowShares(rows: seq<CategoryRow>): (shares: seq<real>)
    requires forall i :: 0 <= i < |rows| ==> rows[i].exposurePct.Some?
    ensures |shares| == |rows|
    ensures forall i :: 0 <= i < |rows| ==> shares[i] == rows[i].exposurePct.value
  {
    seq(|rows|, i requires 0 <= i < |rows| => rows[i].exposurePct.value)
  }

  /**
   When every loan has a category none is dropped: the category exposures of
   the breakdown add up to the total exposure.
   */
  lemma CategoryExposuresPartition(cats: seq<Option<RiskCategory>>, ead: seq<real>, el: seq<real>,
                                   totalExposure: real)
    requires |cats| == |ead| == |el|
    requires None !in cats
    ensures Sum(RowExposures(RiskSummary(cats, ead, el, totalExposure))) == Sum(ead)
  {
    EmptyGroupSum(cats, ead, None);
    CategoryPartition(cats, ead);
    assert RowExposures(RiskSummary(cats, ead, el, totalExposure)) == GroupSums(cats, ead, CategoryKeys);
  }

  /**
   Shares taken against the sum of the rows' own exposures add up to 100
   percent.
   */
  lemma {:induction false} SharesSumToHundred(rows: seq<CategoryRow>, total: real)
    requires total != 0.0 && Sum(RowExposures(rows)) == total
    requires forall i :: 0 <= i < |rows| ==> rows[i].exposurePct == Percent(rows[i].ead, total)
    requires forall i :: 0 <= i < |rows| ==> rows[i].exposurePct.Some?
    ensures Sum(RowShares(rows)) == 100.0
  {
    var eads := RowExposures(rows);
    var shares := RowShares(rows);
    var k := 100.0 / total;
    forall i | 0 <= i < |shares|
      ensures shares[i] == k * eads[i]
    {
      ShareIsScaledExposure(rows[i], total);
    }
    SumScale(eads, shares, k);
    assert k * total == 100.0;
  }

  lemma ShareIsScaledExposure(row: CategoryRow, total: real)
    requires total != 0.0
    requires row.exposurePct == Percent(row.ead, total)
    ensures row.exposurePct.value == (100.0 / total) * row.ead
  {
    var share := row.exposurePct.value;
    var k := 100.0 / total;
    assert share * total == row.ead * 100.0;
    assert k * total == 100.0;
    assert (share - k * row.ead) * total == 0.0;
  }

  /** Every PD in (0, 1] gets a category. */
  lemma PdsInRangeAreCategorised(pds: seq<real>)
    requires forall i :: 0 <= i < |pds| ==> 0.0 < pds[i] <= 1.0
    ensures None !in Categorize(pds)
  {
    var cats := Categorize(pds);
    forall i | 0 <= i < |cats|
      ensures cats[i] != None
    {
      assert cats[i] == CategoryOf(pds[i]);
    }
  }

  /**
   When every PD lies in (0, 1] no loan is dropped from the breakdown: the
   category exposures add up to the total exposure and, for a non-zero
   total, the exposure shares add up to 100 percent.
   */
  lemma ExposureSharesPartition(pds: seq<real>, el: seq<real>, rwa: seq<real>, ead: seq<real>)
    requires |pds| == |el| == |rwa| == |ead|
    requires forall i :: 0 <= i < |pds| ==> 0.0 < pds[i] <= 1.0
    ensures Sum(RowExposures(CreateRiskMetricsTable(pds, el, rwa, ead).summary)) == Sum(ead)
    ensures Sum(ead) != 0.0 ==>
      Sum(RowShares(CreateRiskMetricsTable(pds, el, rwa, ead).summary)) == 100.0
  {
    var cats := Categorize(pds);
    PdsInRangeAreCategorised(pds);
    var rows := RiskSummary(cats, ead, el, Sum(ead));
    assert CreateRiskMetricsTable(pds, el, rwa, ead).summary == rows;
    CategoryExposuresPartition(cats, ead, el, Sum(ead));
    if Sum(ead) != 0.0 {
      SharesSumToHundred(rows, Sum(ead));
    }
  }

  /**
   A portfolio with zero total exposure gets undefined figures, not a
   failure: the weighted average PD, the overall loss percentage and every
   category's share are undefined.
   */
  lemma ZeroExposureUndefined(pds: seq<real>, el: seq<real>, rwa: seq<real>, ead: seq<real>)
    requires |pds| == |el| == |rwa| == |ead|
    requires Sum(ead) == 0.0
    ensures CreateRiskMetricsTable(pds, el, rwa, ead).metrics.weightedAvgPd.None?
    ensures CreateRiskMetricsTable(pds, el, rwa, ead).metrics.elPctOfExposure.None?
    ensures forall i :: 0 <= i < |CategoryLabels| ==>
      CreateRiskMetricsTable(pds, el, rwa, ead).summary[i].exposurePct.None?
  {
  }

  /**
   A category no loan falls in shows zero exposure and zero loss, and its
   loss percentage is undefined (zero over zero).
   */
  lemma EmptyCategoryUndefined(pds: seq<real>, el: seq<real>, rwa: seq<real>, ead: seq<real>,
                               c: RiskCategory)
    requires |pds| == |el| == |rwa| == |ead|
    requires forall i :: 0 <= i < |pds| ==> CategoryOf(pds[i]) != Some(c)
    ensures CreateRiskMetricsTable(pds, el, rwa, ead).summary[CategoryIndex(c)].ead == 0.0
    ensures CreateRiskMetricsTable(pds, el, rwa, ead).summary[CategoryIndex(c)].el == 0.0
    ensures CreateRiskMetricsTable(pds, el, rwa, ead).summary[CategoryIndex(c)].elPctOfExposure.None?
  {
    var cats := Categorize(pds);
    assert Some(c) !in cats;
    EmptyGroupSum(cats, ead, Some(c));
    EmptyGroupSum(cats, el, Some(c));
  }

  /** Expected loss per category, as charted: one row per category, empty ones included. */
  datatype CategoryLoss = CategoryLoss(category: RiskCategory, el: real)

  function ExpectedLossByCategory(pds: seq<real>, el: seq<real>): (rows: seq<CategoryLoss>)
    requires |pds| == |el|
    ensures |rows| == |CategoryLabels|
    ensures forall i :: 0 <= i < |rows| ==> rows[i].category == CategoryLabels[i]
    ensures forall i :: 0 <= i < |rows| ==>
      rows[i].el == GroupSum(Categorize(pds), el, Some(CategoryLabels[i]))
  {
    var cats := Categorize(pds);
    seq(|CategoryLabels|, i requires 0 <= i < |CategoryLabels| =>
      CategoryLoss(CategoryLabels[i], GroupSum(cats, el, Some(CategoryLabels[i]))))
  }

  /** The loss chart and the metrics table bucket the same loans the same way. */
  lemma LossChartMatchesTable(pds: seq<real>, el: seq<real>, rwa: seq<real>, ead: seq<real>)
    requires |pds| == |el| == |rwa| == |ead|
    ensures forall i :: 0 <= i < |CategoryLabels| ==>
      ExpectedLossByCategory(pds, el)[i].el == CreateRiskMetricsTable(pds, el, rwa, ead).summary[i].el
  {
  }

  // ---------------------------------------------------------------------
  // Exposure by risk weight
  // ---------------------------------------------------------------------

  ghost predicate StrictlyIncreasing(xs: seq<real>)
  {
    forall i, j :: 0 <= i < j < |xs| ==> xs[i] < xs[j]
  }

  /** Adds `k` to a strictly increasing sequence, keeping it strictly increasing. */
  function InsertSorted(xs: seq<real>, k: real): (r: seq<real>)
    requires StrictlyIncreasing(xs)
    ensures StrictlyIncreasing(r)
    ensures forall x :: x in r <==> x in xs || x == k
    decreases |xs|
  {
    if |xs| == 0 then [k]
    else if k < xs[0] then [k] + xs
    else if k == xs[0] then xs
    else
      var rest := InsertSorted(xs[1..], k);
      assert forall x :: x in rest ==> xs[0] < x by {
        forall x | x in rest
          ensures xs[0] < x
        {
          if x in xs[1..] {
            var j :| 0 <= j < |xs[1..]| && xs[1..][j] == x;
            assert xs[j + 1] == x;
          }
        }
      }
      var r := [xs[0]] + rest;
      assert forall i, j :: 0 <= i < j < |r| ==> r[i] < r[j] by {
        forall i, j | 0 <= i < j < |r|
          ensures r[i] < r[j]
        {
          if i == 0 {
            assert r[j] == rest[j - 1] && rest[j - 1] in rest;
          } else {
            assert r[i] == rest[i - 1] && r[j] == rest[j - 1];
          }
        }
      }
      r
  }

  /** The distinct values of a column in increasing order. */
  function DistinctSorted(xs: seq<real>): (keys: seq<real>)
    ensures StrictlyIncreasing(keys)
    ensures forall x :: x in keys <==> x in xs
  {
    if |xs| == 0 then []
    else
      var keys := InsertSorted(DistinctSorted(xs[..|xs| - 1]), xs[|xs| - 1]);
      assert forall x :: x in xs <==> x in xs[..|xs| - 1] || x == xs[|xs| - 1];
      keys
  }

  /** Total exposure of the loans carrying one risk weight. */
  datatype WeightGroup = WeightGroup(weight: real, ead: real)

  /**
   Exposure summed per distinct risk weight, in increasing order of weight.
   Every weight of the column appears exactly once.
   */
  function ExposureByRiskWeight(weights: seq<real>, ead: seq<real>): (groups: seq<WeightGroup>)
    requires |weights| == |ead|
    ensures forall i, j :: 0 <= i < j < |groups| ==> groups[i].weight < groups[j].weight
    ensures forall i :: 0 <= i < |groups| ==> groups[i].weight in weights
    ensures forall j :: 0 <= j < |weights| ==>
      exists i :: 0 <= i < |groups| && groups[i].weight == weights[j]
    ensures forall i :: 0 <= i < |groups| ==> groups[i].ead == GroupSum(weights, ead, groups[i].weight)
  {
    var keys := DistinctSorted(weights);
    var groups := seq(|keys|, i requires 0 <= i < |keys| =>
      WeightGroup(keys[i], GroupSum(weights, ead, keys[i])));
    forall j | 0 <= j < |weights|
      ensures exists i :: 0 <= i < |groups| && groups[i].weight == weights[j]
    {
      assert weights[j] in keys;
      var i :| 0 <= i < |keys| && keys[i] == weights[j];
      assert groups[i].weight == weights[j];
    }
    groups
  }

  /** The grouped exposures of the weight chart. */
  function GroupExposures(groups: seq<WeightGroup>): (eads: seq<real>)
    ensures |eads| == |groups|
    ensures forall i :: 0 <= i < |groups| ==> eads[i] == groups[i].ead
  {
    seq(|groups|, i requires 0 <= i < |groups| => groups[i].ead)
  }

  /** Grouping by risk weight loses no exposure: the groups add up to the total. */
  lemma ExposureByRiskWeightPreservesTotal(weights: seq<real>, ead: seq<real>)
    requires |weights| == |ead|
    ensures Sum(GroupExposures(ExposureByRiskWeight(weights, ead))) == Sum(ead)
  {
    var keys := DistinctSorted(weights);
    var groups := ExposureByRiskWeight(weights, ead);
    assert |groups| == |keys| && forall i :: 0 <= i < |keys| ==> groups[i].weight == keys[i];
    assert GroupExposures(groups) == GroupSums(weights, ead, keys);
    forall i | 0 <= i < |weights|
      ensures weights[i] in keys
    {
    }
    GroupPartition(weights, ead, keys);
  }
}
