/** Worked cycles, each with every figure pinned down. */
module Scenarios {
  import opened Fattening

  /** The values the input form starts with. */
  const Default := Inputs(
    purchased := 50,
    pricePerBird := 4000,
    feedBags := 6,
    pricePerBag := 108000,
    avgWeightLbs := 6.25,
    pricePerLb := 6500,
    mortalityPercent := 5.0,
    slaughterPerBird := 1500,
    extraExpense := 0
  )

  /** The default cycle: 47 of 50 birds survive 5 % mortality (47.5 cut
      down to whole birds) and the cycle makes a profit. */
  lemma DefaultScenario()
    ensures Valid(Default)
    ensures Compute(Default) == Outputs(
      sold := 47,
      totalPounds := 293.75,
      revenue := 1909375.0,
      birdCost := 200000,
      feedCost := 648000,
      slaughterCost := 70500,
      totalCost := 918500,
      netProfit := 990875.0)
    ensures ProfitShade(Compute(Default)) == Green
  {
    assert Survivors(Default) == 47.5;
    assert Sold(Default) == 47;
  }

  /** A cheap sale at half mortality: the loss is reported with its sign. */
  const Losing := Default.(pricePerLb := 1000, mortalityPercent := 50.0)

  lemma LosingScenario()
    ensures Valid(Losing)
    ensures Compute(Losing) == Outputs(
      sold := 25,
      totalPounds := 156.25,
      revenue := 156250.0,
      birdCost := 200000,
      feedCost := 648000,
      slaughterCost := 37500,
      totalCost := 885500,
      netProfit := -729250.0)
    ensures ProfitShade(Compute(Losing)) == Red
  {
    assert Survivors(Losing) == 25.0;
    assert Sold(Losing) == 25;
  }
}
