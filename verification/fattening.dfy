/** The profit calculation of one poultry-fattening cycle.

    Nine values collected by the input form go in; eight figures come out:
    birds sold, pounds sold, revenue, the three cost lines, total cost and
    net profit. Money is in Colombian pesos (COP), weight in pounds. The
    sold count and every cost figure are exact integers, as in the program.
    The number of surviving birds before truncation (a possibly fractional
    count), the pounds, the revenue and the net profit are machine floats in
    the program and exact `real`s here.
 */
module Fattening {

  /** The nine values the input form collects. The mortality slider is kept
      as the percentage the user sees; the calculation divides it by 100. */
  datatype Inputs = Inputs(
    purchased: int,          // birds bought at the start of the cycle
    pricePerBird: int,       // COP paid per bird bought
    feedBags: int,           // bags of feed consumed
    pricePerBag: int,        // COP per bag of feed
    avgWeightLbs: real,      // average weight of a bird at sale
    pricePerLb: int,         // sale price, COP per pound
    mortalityPercent: real,  // slider value, 0 to 100
    slaughterPerBird: int,   // COP per bird slaughtered
    extraExpense: int        // unforeseen extra cost, COP
  )

  /** The eight figures derived from one `Inputs`. */
  datatype Outputs = Outputs(
    sold: int,
    totalPounds: real,
    revenue: real,
    birdCost: int,
    feedCost: int,
    slaughterCost: int,
    totalCost: int,
    netProfit: real
  )

  // Minimums and range enforced by the input widgets.
  const MinPurchased := 1
  const MinPricePerBird := 1000
  const MinFeedBags := 1
  const MinPricePerBag := 10000
  const MinAvgWeightLbs := 1.0
  const MinPricePerLb := 1000
  const MaxMortalityPercent := 100.0
  const MinSlaughterPerBird := 0
  const MinExtraExpense := 0

  /** The values the input form can hand to the calculation. */
  predicate Valid(i: Inputs) {
    && i.purchased >= MinPurchased
    && i.pricePerBird >= MinPricePerBird
    && i.feedBags >= MinFeedBags
    && i.pricePerBag >= MinPricePerBag
    && i.avgWeightLbs >= MinAvgWeightLbs
    && i.pricePerLb >= MinPricePerLb
    && 0.0 <= i.mortalityPercent <= MaxMortalityPercent
    && i.slaughterPerBird >= MinSlaughterPerBird
    && i.extraExpense >= MinExtraExpense
  }

  /** The mortality as a fraction in [0, 1]. */
  function Rate(i: Inputs): real {
    i.mortalityPercent / 100.0
  }

  /** The number of birds left after mortality before truncation, a real and
      possibly fractional count; never negative and never more than the
      birds bought. */
  function Survivors(i: Inputs): (x: real)
    requires Valid(i)
    ensures 0.0 <= x <= i.purchased as real
  {
    var n := i.purchased as real;
    assert n * Rate(i) <= n * 1.0 by { ScaleMonotone(Rate(i), 1.0, n); }
    n * (1.0 - Rate(i))
  }

  /** Python's `int()` applied to a number: truncation toward zero. */
  function Truncate(x: real): (r: int)
    ensures 0.0 <= x ==> r as real <= x < r as real + 1.0
    ensures x < 0.0 ==> r as real - 1.0 < x <= r as real
  {
    if x >= 0.0 then x.Floor else -((-x).Floor)
  }

  /** Birds sold: the survivors, cut down to a whole number of birds. */
  function Sold(i: Inputs): int
    requires Valid(i)
  {
    Truncate(Survivors(i))
  }

  function TotalPounds(i: Inputs): real
    requires Valid(i)
  {
    Sold(i) as real * i.avgWeightLbs
  }

  function Revenue(i: Inputs): real
    requires Valid(i)
  {
    TotalPounds(i) * i.pricePerLb as real
  }

  /** Every bird bought is paid for, whether it survives or not. */
  function BirdCost(i: Inputs): int {
    i.purchased * i.pricePerBird
  }

  function FeedCost(i: Inputs): int {
    i.feedBags * i.pricePerBag
  }

  /** Only the birds sold are slaughtered. */
  function SlaughterCost(i: Inputs): int
    requires Valid(i)
  {
    Sold(i) * i.slaughterPerBird
  }

  function TotalCost(i: Inputs): int
    requires Valid(i)
  {
    BirdCost(i) + FeedCost(i) + SlaughterCost(i) + i.extraExpense
  }

  /** What revenue leaves after all costs; negative for a loss. */
  function NetProfit(i: Inputs): real
    requires Valid(i)
  {
    Revenue(i) - TotalCost(i) as real
  }

  /** The profit calculation. The sold count is the whole number of birds
      left after mortality, rounded down. */
  function Compute(i: Inputs): (o: Outputs)
    requires Valid(i)
    ensures 0 <= o.sold <= i.purchased
    ensures o.sold as real <= Survivors(i) < o.sold as real + 1.0
    ensures 0.0 <= o.totalPounds && 0.0 <= o.revenue
    ensures o.birdCost <= o.totalCost && o.feedCost <= o.totalCost
    ensures o.slaughterCost <= o.totalCost && i.extraExpense <= o.totalCost
  {
    Outputs(Sold(i), TotalPounds(i), Revenue(i), BirdCost(i), FeedCost(i), SlaughterCost(i),
            TotalCost(i), NetProfit(i))
  }

  /** The same inputs with the mortality slider moved to `percent`. */
  function WithMortality(i: Inputs, percent: real): (j: Inputs)
    requires Valid(i) && 0.0 <= percent <= MaxMortalityPercent
    ensures Valid(j) && j.mortalityPercent == percent
    ensures j.(mortalityPercent := i.mortalityPercent) == i
  {
    i.(mortalityPercent := percent)
  }

  /** Total cost is the sum of the four cost lines, and net profit is what
      revenue leaves after it; neither is clamped. */
  lemma CostAndProfitAccounting(i: Inputs)
    requires Valid(i)
    ensures var o := Compute(i);
      && o.totalCost == o.birdCost + o.feedCost + o.slaughterCost + i.extraExpense
      && o.netProfit == o.revenue - o.totalCost as real
      && o.netProfit + o.totalCost as real == o.revenue
  {
  }

  /** All birds are sold exactly when the mortality slider is at zero. */
  lemma AllSoldIffNoMortality(i: Inputs)
    requires Valid(i)
    ensures Compute(i).sold == i.purchased <==> i.mortalityPercent == 0.0
  {
  }

  /** No bird is sold exactly when fewer than one survives the cycle. */
  lemma NoneSoldIffLessThanOneSurvivor(i: Inputs)
    requires Valid(i)
    ensures Compute(i).sold == 0 <==> Survivors(i) < 1.0
  {
  }

  /** At 100 % mortality nothing is sold: no pounds, no revenue and no
      slaughter cost, while the birds and the feed are still paid for. */
  lemma FullMortality(i: Inputs)
    requires Valid(i) && i.mortalityPercent == MaxMortalityPercent
    ensures var o := Compute(i);
      && o.sold == 0 && o.totalPounds == 0.0 && o.revenue == 0.0 && o.slaughterCost == 0
      && o.totalCost == o.birdCost + o.feedCost + i.extraExpense
      && o.netProfit == -(o.totalCost as real) < 0.0
  {
  }

  /** At 0 % mortality every bird bought is sold at the average weight. */
  lemma NoMortality(i: Inputs)
    requires Valid(i) && i.mortalityPercent == 0.0
    ensures var o := Compute(i);
      && o.sold == i.purchased
      && o.totalPounds == i.purchased as real * i.avgWeightLbs
      && o.slaughterCost == i.purchased * i.slaughterPerBird
  {
  }

  /** Moving the mortality slider up never raises the sold count, the pounds,
      the revenue or the slaughter cost. */
  lemma MortalityMonotone(i: Inputs, percent: real)
    requires Valid(i) && i.mortalityPercent <= percent <= MaxMortalityPercent
    ensures var oi, oj := Compute(i), Compute(WithMortality(i, percent));
      && oj.sold <= oi.sold
      && oj.totalPounds <= oi.totalPounds
      && oj.revenue <= oi.revenue
      && oj.slaughterCost <= oi.slaughterCost
  {
    SoldAntitone(i, percent);
    PoundsAntitone(i, percent);
    RevenueAntitone(i, percent);
    SlaughterCostAntitone(i, percent);
  }

  lemma PoundsAntitone(i: Inputs, percent: real)
    requires Valid(i) && i.mortalityPercent <= percent <= MaxMortalityPercent
    ensures TotalPounds(WithMortality(i, percent)) <= TotalPounds(i)
  {
    var j := WithMortality(i, percent);
    SoldAntitone(i, percent);
    ScaleMonotone(Sold(j) as real, Sold(i) as real, i.avgWeightLbs);
  }

  lemma RevenueAntitone(i: Inputs, percent: real)
    requires Valid(i) && i.mortalityPercent <= percent <= MaxMortalityPercent
    ensures Revenue(WithMortality(i, percent)) <= Revenue(i)
  {
    var j := WithMortality(i, percent);
    PoundsAntitone(i, percent);
    assert j.pricePerLb == i.pricePerLb;
    ScaleMonotone(TotalPounds(j), TotalPounds(i), i.pricePerLb as real);
  }

  lemma SlaughterCostAntitone(i: Inputs, percent: real)
    requires Valid(i) && i.mortalityPercent <= percent <= MaxMortalityPercent
    ensures SlaughterCost(WithMortality(i, percent)) <= SlaughterCost(i)
  {
    var j := WithMortality(i, percent);
    SoldAntitone(i, percent);
    ScaleMonotoneInt(Sold(j), Sold(i), i.slaughterPerBird);
  }

  lemma SoldAntitone(i: Inputs, percent: real)
    requires Valid(i) && i.mortalityPercent <= percent <= MaxMortalityPercent
    ensures var j := WithMortality(i, percent);
      && Sold(j) <= Sold(i)
      && j.avgWeightLbs == i.avgWeightLbs && j.pricePerLb == i.pricePerLb
      && j.slaughterPerBird == i.slaughterPerBird
  {
    var j := WithMortality(i, percent);
    SurvivorsAntitone(i, percent);
    TruncateMonotone(Survivors(j), Survivors(i));
  }

  lemma SurvivorsAntitone(i: Inputs, percent: real)
    requires Valid(i) && i.mortalityPercent <= percent <= MaxMortalityPercent
    ensures Survivors(WithMortality(i, percent)) <= Survivors(i)
  {
    var j := WithMortality(i, percent);
    assert j.purchased == i.purchased;
    assert Rate(i) <= Rate(j);
    ScaledSurvivorsShrink(i.purchased as real, Rate(i), Rate(j));
    assert Survivors(j) == i.purchased as real * (1.0 - Rate(j));
  }

  // A higher loss fraction leaves fewer survivors out of the same flock.
  lemma ScaledSurvivorsShrink(n: real, r: real, r': real)
    requires 0.0 <= n && r <= r'
    ensures n * (1.0 - r') <= n * (1.0 - r)
  {
    assert n * (1.0 - r) - n * (1.0 - r') == n * (r' - r);
  }

  lemma ScaleMonotone(x: real, x': real, y: real)
    requires x <= x' && 0.0 <= y
    ensures x * y <= x' * y && y * x <= y * x'
  {
    assert x' * y - x * y == (x' - x) * y;
  }

  lemma ScaleMonotoneInt(x: int, x': int, y: int)
    requires x <= x' && 0 <= y
    ensures x * y <= x' * y
  {
    assert x' * y - x * y == (x' - x) * y;
  }

  lemma TruncateMonotone(x: real, x': real)
    requires 0.0 <= x <= x'
    ensures Truncate(x) <= Truncate(x')
  {
  }

  /** The bird and feed costs do not depend on mortality: dead birds are
      paid for. Only the slaughter cost, driven by the sold count, moves
      the total cost. */
  lemma MortalityOnlyMovesSlaughterCost(i: Inputs, percent: real)
    requires Valid(i) && 0.0 <= percent <= MaxMortalityPercent
    ensures var oi, oj := Compute(i), Compute(WithMortality(i, percent));
      && oi.birdCost == oj.birdCost
      && oi.feedCost == oj.feedCost
      && oi.totalCost - oj.totalCost == oi.slaughterCost - oj.slaughterCost
      && oi.totalCost - oj.totalCost == (oi.sold - oj.sold) * i.slaughterPerBird
  {
  }

  /** The bird cost is charged on every bird bought, the slaughter cost only
      on the birds sold: the dead ones add their purchase price and nothing
      else. */
  lemma CountsDrivingCosts(i: Inputs)
    requires Valid(i)
    ensures var o := Compute(i);
      && o.birdCost == o.sold * i.pricePerBird + (i.purchased - o.sold) * i.pricePerBird
      && o.sold * i.pricePerBird <= o.birdCost
      && o.slaughterCost <= i.purchased * i.slaughterPerBird
      && o.slaughterCost == o.sold * i.slaughterPerBird
  {
  }

  /** Net profit is the margin on each bird sold (sale value minus slaughter
      cost) times the sold count, less the costs that do not depend on it. */
  lemma ProfitPerBirdSold(i: Inputs)
    requires Valid(i)
    ensures var o := Compute(i);
      o.netProfit
        == o.sold as real * (i.avgWeightLbs * i.pricePerLb as real - i.slaughterPerBird as real)
           - (o.birdCost + o.feedCost + i.extraExpense) as real
  {
  }

  /** The colour the net profit is shown in. */
  datatype Shade = Green | Red

  /** Green for a profit or a break-even, red for a loss. */
  function ProfitShade(o: Outputs): (s: Shade)
    ensures s == Green <==> o.netProfit >= 0.0
  {
    if o.netProfit >= 0.0 then Green else Red
  }

  /** The green branch is taken exactly when revenue covers total cost, and
      a loss keeps its sign. */
  lemma ShadeFollowsBreakEven(i: Inputs)
    requires Valid(i)
    ensures var o := Compute(i);
      && (ProfitShade(o) == Green <==> o.revenue >= o.totalCost as real)
      && (ProfitShade(o) == Red <==> o.netProfit < 0.0)
      && (o.revenue < o.totalCost as real ==> o.netProfit == -(o.totalCost as real - o.revenue) < 0.0)
  {
  }
}
