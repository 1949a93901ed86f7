/** The two tables built from one cycle: the financial summary (concept,
    amount) and the list of input parameters that goes into the exported
    spreadsheet. */
module Report {
  import opened Fattening

  datatype Option<T> = None | Some(value: T)

  /** One row of a two-column table. */
  datatype LineItem = LineItem(concept: string, value: real)

  /** The summary rows, in the order they are shown. */
  const SummaryConcepts: seq<string> := [
    "Compra de pollos", "Alimento", "Sacrificio", "Gasto Extra",
    "Total Costos", "Ingresos por venta", "Ganancia neta"
  ]

  // Positions of the summary rows.
  const BirdRow := 0
  const FeedRow := 1
  const SlaughterRow := 2
  const ExtraRow := 3
  const TotalCostRow := 4
  const RevenueRow := 5
  const NetProfitRow := 6

  /** The parameter rows, in the order of the input form. */
  const ParameterNames: seq<string> := [
    "Pollos Comprados", "Precio por Pollo (COP)", "Bultos de Alimento",
    "Costo por Bulto (COP)", "Peso Promedio por Pollo (lbs)",
    "Precio por Libra (COP)", "Tasa de Mortalidad (%)",
    "Costo Sacrificio por Pollo (COP)", "Gasto Extra / Eventualidad (COP)"
  ]

  const MortalityRow := 6

  /** The first column of a table. */
  function Concepts(table: seq<LineItem>): seq<string> {
    seq(|table|, k requires 0 <= k < |table| => table[k].concept)
  }

  /** The second column of a table. */
  function Values(table: seq<LineItem>): seq<real> {
    seq(|table|, k requires 0 <= k < |table| => table[k].value)
  }

  /** The financial summary of one cycle. */
  function Summary(i: Inputs): (table: seq<LineItem>)
    requires Valid(i)
    ensures Concepts(table) == SummaryConcepts
    ensures table[BirdRow].value == BirdCost(i) as real
    ensures table[FeedRow].value == FeedCost(i) as real
    ensures table[ExtraRow].value == i.extraExpense as real
    ensures table[SlaughterRow].value == Sold(i) as real * i.slaughterPerBird as real
    ensures table[RevenueRow].value == Sold(i) as real * i.avgWeightLbs * i.pricePerLb as real
  {
    var o := Compute(i);
    [
      LineItem("Compra de pollos", o.birdCost as real),
      LineItem("Alimento", o.feedCost as real),
      LineItem("Sacrificio", o.slaughterCost as real),
      LineItem("Gasto Extra", i.extraExpense as real),
      LineItem("Total Costos", o.totalCost as real),
      LineItem("Ingresos por venta", o.revenue),
      LineItem("Ganancia neta", o.netProfit)
    ]
  }

  /** The total-cost row adds up the four cost rows above it and shows the
      calculated total cost; the net-profit row is the revenue row less the
      total-cost row and shows the calculated net profit. */
  lemma SummaryTotals(i: Inputs)
    requires Valid(i)
    ensures var amounts := Values(Summary(i));
      && amounts[TotalCostRow]
           == amounts[BirdRow] + amounts[FeedRow] + amounts[SlaughterRow] + amounts[ExtraRow]
      && amounts[NetProfitRow] == amounts[RevenueRow] - amounts[TotalCostRow]
      && amounts[TotalCostRow] == TotalCost(i) as real
      && amounts[NetProfitRow] == NetProfit(i)
      && forall k :: BirdRow <= k < TotalCostRow ==> 0.0 <= amounts[k] <= amounts[TotalCostRow]
  {
  }

  /** The parameter values as exported; the mortality rate is turned back
      into a percentage. */
  function ParameterValues(i: Inputs): (values: seq<real>)
    ensures |values| == |ParameterNames|
    ensures values[MortalityRow] == i.mortalityPercent
  {
    [
      i.purchased as real, i.pricePerBird as real, i.feedBags as real,
      i.pricePerBag as real, i.avgWeightLbs, i.pricePerLb as real,
      Rate(i) * 100.0,
      i.slaughterPerBird as real, i.extraExpense as real
    ]
  }

  /** The parameter table of the exported spreadsheet. */
  function ParameterTable(i: Inputs): (table: seq<LineItem>)
    ensures Concepts(table) == ParameterNames
    ensures Values(table) == ParameterValues(i)
  {
    var values := ParameterValues(i);
    seq(|ParameterNames|, k requires 0 <= k < |ParameterNames| => LineItem(ParameterNames[k], values[k]))
  }

  predicate IsWhole(x: real) {
    x.Floor as real == x
  }

  /** Reads the inputs back from an exported parameter list; `None` when the
      list is not one the input form could have produced. */
  function ReadParameters(values: seq<real>): (r: Option<Inputs>)
    ensures r.Some? ==> Valid(r.value)
  {
    if |values| != |ParameterNames| then None
    else if !(IsWhole(values[0]) && IsWhole(values[1]) && IsWhole(values[2]) && IsWhole(values[3])
              && IsWhole(values[5]) && IsWhole(values[7]) && IsWhole(values[8])) then None
    else
      var i := Inputs(values[0].Floor, values[1].Floor, values[2].Floor, values[3].Floor,
                      values[4], values[5].Floor, values[6], values[7].Floor, values[8].Floor);
      if Valid(i) then Some(i) else None
  }

  /** The exported parameter list determines the inputs: reading it back
      gives the inputs it was made from, ... */
  lemma ParametersRoundTrip(i: Inputs)
    requires Valid(i)
    ensures ReadParameters(ParameterValues(i)) == Some(i)
  {
  }

  /** ... and whatever list reads back is exactly the export of what it
      reads as. */
  lemma ParametersReadBack(values: seq<real>)
    requires ReadParameters(values).Some?
    ensures ParameterValues(ReadParameters(values).value) == values
  {
  }
}
