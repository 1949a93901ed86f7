# Poultry fattening cycle: profit model in Dafny

This project models the calculation at the heart of a small financial
calculator for one broiler-fattening cycle ("Análisis Financiero del Ciclo de
Engorde de Pollos"). A form collects nine numbers: birds bought and their unit
price, feed bags and their unit price, the average weight at sale, the sale
price per pound, the mortality slider (0 % to 100 % in steps of 0.5 %), the
slaughter cost per bird, and an extra expense. From these the program derives
eight figures: birds sold, pounds sold, revenue, the bird, feed and slaughter
costs, total cost and net profit. It shows the net profit in green or red, and
builds two tables: a seven-row financial summary and a nine-row list of the
input parameters for the exported spreadsheet.

Files:

- `fattening.dfy` (module `Fattening`): the `Inputs`/`Outputs` records, the
  widget minimums as the predicate `Valid`, the calculation `Compute` (one
  function per figure), and the lemmas about it. These cover the
  boundary cases at 0 % and 100 % mortality, monotonicity in the mortality
  rate, which head count drives which cost, the accounting identities and the
  colour of the net-profit display.
- `slider_grid.dfy` (module `SliderGrid`): the 201 slider positions and an
  integer-only sold count, `purchased * (200 - k) / 200`, proved equal to the
  exact-real one on every position. Also proved: birds lost to mortality are
  rounded up to whole birds.
- `report.dfy` (module `Report`): the summary table and the parameter list.
  The parameter list has an inverse, `ReadParameters`, proved to undo it in
  both directions.
- `scenarios.dfy` (module `Scenarios`): the form's default cycle and a loss-making
  cycle, each with all eight figures pinned down.

The calculation is exact. The inputs the form collects as integers, the sold
count and every cost figure (bird, feed, slaughter and total cost) are `int`,
as they are in the program. The average weight, the mortality percentage, the
number of surviving birds before line 96 truncates it (a possibly fractional
count), the pounds, the revenue and the net profit are floats in the program
and `real` here. Python's `int()` on line 96 is modelled as truncation toward
zero (`Truncate`). Its argument is never negative, so
this is the floor.

The widget minimums are 1000 COP per bird, 10000 COP per feed bag and 1000
COP per pound; the average weight is at least 1.0 lb.

## Model

| member | source | states |
|---|---|---|
| Fattening.Truncate | Pollos.py:96 | `int()` truncates toward zero: for a non-negative argument the result is the greatest integer not above it; for a negative one, the least integer not below it |
| Fattening.Survivors | Pollos.py:96 | with the rate in [0, 1], the exact number of surviving birds lies between 0 and the number bought |
| Fattening.Compute | Pollos.py:96-104 | the sold count lies between 0 and the number bought and is the surviving number cut down to whole birds; pounds and revenue are never negative; total cost is at least each of its four components |
| Fattening.CostAndProfitAccounting | Pollos.py:103-104 | total cost is exactly bird + feed + slaughter + extra cost; net profit is exactly revenue minus total cost, with no clamping |
| Fattening.AllSoldIffNoMortality | Pollos.py:96 | every bird bought is sold if and only if the mortality slider is at 0 % |
| Fattening.NoneSoldIffLessThanOneSurvivor | Pollos.py:96 | no bird is sold if and only if fewer than one bird survives exactly |
| Fattening.FullMortality | Pollos.py:96-104 | at 100 % mortality the sold count, pounds, revenue and slaughter cost are all 0; birds, feed and the extra expense are still paid for, so net profit is minus total cost and strictly negative |
| Fattening.NoMortality | Pollos.py:96-102 | at 0 % mortality all birds bought are sold, pounds are the number bought times the average weight, and slaughter is charged on every bird bought |
| Fattening.MortalityMonotone | Pollos.py:96-102 | raising the mortality slider with every other input fixed never increases the sold count, pounds, revenue or slaughter cost |
| Fattening.MortalityOnlyMovesSlaughterCost | Pollos.py:100-103 | bird cost and feed cost do not depend on mortality; a change in mortality changes total cost by exactly the change in sold count times the slaughter cost per bird |
| Fattening.CountsDrivingCosts | Pollos.py:100-102 | bird cost is charged on every bird bought, dead or alive, so it is at least the price of the birds sold; slaughter cost is charged on birds sold only, so it is at most the slaughter price of all birds bought |
| Fattening.ProfitPerBirdSold | Pollos.py:96-104 | net profit equals the sold count times the per-bird margin (weight times price per pound, less slaughter cost) minus the costs that do not depend on the sold count |
| Fattening.ProfitShade | Pollos.py:119-122 | the net profit is shown in green exactly when it is at least 0 |
| Fattening.ShadeFollowsBreakEven | Pollos.py:104-122 | green is shown exactly when revenue covers total cost, and red exactly when net profit is negative; a loss keeps its sign and size |
| Scenarios.DefaultScenario | Pollos.py:22-104 | the form's default values are valid and give 47 birds sold, 293.75 lb, revenue 1,909,375, costs 200,000 / 648,000 / 70,500, total cost 918,500 and net profit 990,875, shown green |
| Scenarios.LosingScenario | Pollos.py:96-122 | at 50 % mortality and 1000 COP per pound the cycle gives 25 birds sold, 156.25 lb, revenue 156,250, costs 200,000 / 648,000 / 37,500, total cost 885,500 and net profit -729,250, shown red |
| SliderGrid.Position | Pollos.py:68-75 | every percentage the slider can produce is k/2 % for a position k in 0..200 |
| SliderGrid.PositionRoundTrip | Pollos.py:68-75 | every position 0..200 gives a grid percentage that maps back to the same position |
| SliderGrid.SoldAtPosition | Pollos.py:96 | the integer-only sold count at a slider position lies between 0 and the number bought |
| SliderGrid.SoldOnGrid | Pollos.py:68-96 | on every slider position the exact-real sold count equals the integer quotient `purchased * (200 - k) / 200` |
| SliderGrid.LossRoundsUp | Pollos.py:96 | the number of birds lost is the mortality share of the flock rounded up to a whole bird |
| Report.Summary | Pollos.py:131-140 | the summary has the seven concepts in fixed order (bird purchase, feed, slaughter, extra, total cost, revenue, net profit); the bird row is charged on birds bought, the feed row is the feed cost and the extra row the extra expense, while the slaughter and revenue rows are driven by birds sold |
| Report.SummaryTotals | Pollos.py:131-140 | the total-cost row is the sum of the four cost rows above it, each of which is non-negative and at most the total; the net-profit row is the revenue row minus the total-cost row; these two rows show the calculated total cost and net profit |
| Report.ParameterValues | Pollos.py:146-158 | the parameter list has nine values, and multiplying the rate by 100 gives back exactly the slider percentage |
| Report.ParameterTable | Pollos.py:146-158 | the parameter table pairs the nine parameter names, in form order, with those nine values |
| Report.ReadParameters | Pollos.py:146-158 | reading a parameter list back yields only inputs the form accepts |
| Report.ParametersRoundTrip | Pollos.py:146-158 | reading back the parameter list of any valid inputs gives exactly those inputs |
| Report.ParametersReadBack | Pollos.py:146-158 | any list that reads back successfully is exactly the parameter list of what it reads as |

## Left out

- Page layout, widgets, metric cards and markdown rendering (Pollos.py:8-20, 107-118, the markdown calls at 120 and 122, 201-204) are user interface; the branch condition at line 119 is modelled by `Fattening.ProfitShade`. The widget minimums and the slider range are kept as the predicate `Valid`.
- The step sizes of the number inputs are left out. A user can type values that are not on the step, so the steps do not restrict the domain. The slider's 0.5 % step is modelled in `SliderGrid`, and `Valid` allows any percentage from 0 to 100.
- The bar chart of total cost against revenue (Pollos.py:173-199) is drawing through plotting libraries that are not part of this model.
- The spreadsheet export (Pollos.py:160-171) is serialisation through pandas and xlsxwriter. Its output file is not part of this model. Only the two tables it writes are modelled.
- Currency and number formatting (Pollos.py:110-122, 141, 190) is presentation only.
- Fattening.Compute: exact real arithmetic replaces IEEE-754 doubles. On line 96 this can change the sold count. For example, with 90 birds at 30 % mortality, `int(90 * (1 - 0.3))` is 62 with doubles, because the product evaluates to 62.99999999999999, but 63 over the reals. The model states the intended exact truncation, not the floating-point result.
- Report.ParameterValues: `rate * 100` gives back the slider percentage exactly over the reals. With doubles it can differ in the last bit.
- The pandas columns mix Python `int` and `float` values. They are modelled as one `seq<real>`.
