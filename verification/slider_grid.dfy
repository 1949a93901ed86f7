/** The mortality slider moves in steps of 0.5 % from 0 % to 100 %, so it has
    201 positions: position k stands for k/2 %, a rate of k/200. On those
    positions the sold count needs no real numbers at all: it is a quotient
    of integers. */
module SliderGrid {
  import opened Fattening

  const SliderSteps := 200  // positions 0..200, i.e. 0.5 % apart

  /** A percentage the slider can actually produce. */
  predicate OnGrid(percent: real) {
    && 0.0 <= percent <= MaxMortalityPercent
    && (2.0 * percent).Floor as real == 2.0 * percent
  }

  /** The slider position of a percentage on the grid. */
  function Position(percent: real): (k: int)
    requires OnGrid(percent)
    ensures 0 <= k <= SliderSteps && percent == k as real / 2.0
  {
    (2.0 * percent).Floor
  }

  /** Every position produces a grid percentage, and it maps back to the
      same position. */
  lemma PositionRoundTrip(k: int)
    requires 0 <= k <= SliderSteps
    ensures OnGrid(k as real / 2.0) && Position(k as real / 2.0) == k
  {
    assert 2.0 * (k as real / 2.0) == k as real;
  }

  /** Birds sold at slider position k, in integer arithmetic only. */
  function SoldAtPosition(purchased: int, k: int): (sold: int)
    requires purchased >= MinPurchased && 0 <= k <= SliderSteps
    ensures 0 <= sold <= purchased
  {
    purchased * (SliderSteps - k) / SliderSteps
  }

  /** On every slider position the exact-real calculation and the integer
      one agree on the sold count. */
  lemma SoldOnGrid(i: Inputs)
    requires Valid(i) && OnGrid(i.mortalityPercent)
    ensures Sold(i) == SoldAtPosition(i.purchased, Position(i.mortalityPercent))
  {
  }

  /** The birds lost to mortality are rounded UP to whole birds: a fraction
      of a dead bird costs a whole sale. */
  lemma LossRoundsUp(purchased: int, k: int)
    requires purchased >= MinPurchased && 0 <= k <= SliderSteps
    ensures purchased - SoldAtPosition(purchased, k)
         == (purchased * k + SliderSteps - 1) / SliderSteps
  {
  }
}
