# Weekly investment calculator: the allocation engine

This is a Dafny model of the allocation engine in the `InvestmentCalculator` React component (`src/App.js`). The engine's state is four pieces:

- a total amount to invest;
- a number of weeks to spread it over;
- a tree of sectors, where each sector has a name, a share of the whole (a fraction, `1.0` meaning 100%) and an ordered list of stocks, each with a ticker and a share of its sector;
- a flag that warns when the sector shares do not sum to 1.

The component has two other state hooks (lines 92-93). `editingSectorIndex` chooses which sector's stock editor is shown, and so which sector the stock handlers edit (lines 304, 312, 322 and 340). `editingStockIndex` is never used. The model's handlers take the sector index as a parameter.

The handlers edit the tree:

- set a sector's share;
- set a stock's share or ticker;
- append a `"NEW"` stock at 0;
- remove a stock with `splice`.

An effect recomputes the warning after every change of the tree. `validateStockAllocations` runs the same check on one sector's stocks. `calculateWeeklyInvestments` turns the state into the plan: one line per stock, in sector order and then stock order. Each line holds:

- the weekly amount: total / weeks × sector share × stock share;
- that amount times the weeks;
- both shares as percentages.

The footer shows the weekly total and the total amount.

The model has four modules:

- `Portfolio` (`portfolio.dfy`) defines the tree as datatypes, the two `reduce` sums, the tolerance rule shared by both checks, and every edit as a function of the old tree. It also holds lemmas on how each edit moves the two sums and so the two checks.
- `Seed` (`seed.dfy`) holds the default tree and what the checks say about it.
- `Plan` (`plan.dfy`) holds the plan as a function of the tree, the amount and the weeks. It proves:
  - where each stock's line sits and what the line holds;
  - what all the lines add up to;
  - that with both checks passing and no negative sector share, the money handed out stays within 98.01% to 102.01% of the amount, and that without the last premise it need not (the share inputs accept a negative entry);
  - exactly how each edit changes the plan.
- `Calculator` (`calculator.dfy`) is the component as a class whose fields are its state. Each handler is a method that updates the state and then runs the warning refresh, as the effect does. `CalculateWeeklyInvestments` keeps the two nested loops, and is proved to return exactly the plan `Plan.WeeklyInvestments` defines.

Numbers are exact reals. Both checks use the same rule, `Portfolio.OutsideTolerance`: a sum is flagged when it lies strictly more than `Tolerance` (0.01, in fraction units) away from 1, that is outside the band from `LowerBound` (0.99) to `UpperBound` (1.01). The tolerance is defined once, and the effect's refresh and every bound lemma use these names.

Two behaviours of the code are kept as written:

- The weeks input is not clamped, so a zero or negative number of weeks reaches the plan. The model takes any number of weeks other than 0.
- `validateStockAllocations` answers "a problem" with `true` and answers `false` for an index that names no sector.

## Model

| member | source | states |
|---|---|---|
| Portfolio.ParseOrZero | src/App.js:129 | `parseFloat` with 0 as the fallback: a failed parse or a zero gives 0; any other parsed number is kept; the result is 0 exactly in those two cases |
| Portfolio.ClampNonNegative | src/App.js:209 | the total amount entered is kept when it is not negative and becomes 0 when it is; the result is never negative and never below the input |
| Portfolio.OutsideTolerance | src/App.js:99 | a total is flagged exactly when it is below 0.99 or above 1.01 |
| Portfolio.SectorWarning | src/App.js:96-100 | the warning is on exactly when the sum of the sector shares is below 0.99 or above 1.01 |
| Portfolio.ValidateStockAllocations | src/App.js:103-109 | `false` for an index that names no sector; otherwise `true` exactly when that sector's stock shares sum to below 0.99 or above 1.01 |
| Portfolio.TotalStockAllocation | src/App.js:107 | the `reduce` over a sector's stock shares; a definition without a contract of its own, whose properties are stated by `StockTotalConcat`, `StockTotalStep`, `StockTotalReplace` and `StockTotalRemove` |
| Portfolio.TotalSectorAllocation | src/App.js:98 | the `reduce` over the sector shares; a definition without a contract of its own, whose properties are stated by `SectorTotalConcat`, `SectorTotalStep` and `SectorTotalReplace` |
| Portfolio.StockTotalConcat | src/App.js:107 | the stock sum of two runs of stocks is the sum of their sums |
| Portfolio.SectorTotalConcat | src/App.js:98 | the sector sum of two runs of sectors is the sum of their sums |
| Portfolio.StockTotalStep | src/App.js:107 | the sum of the first k+1 stocks is the sum of the first k plus stock k, the step of the left-to-right `reduce` |
| Portfolio.SectorTotalStep | src/App.js:98 | the sum of the first k+1 sectors is the sum of the first k plus sector k, the step of the left-to-right `reduce` |
| Portfolio.WithSectorAllocation | src/App.js:125-132 | only the addressed sector's share changes, to the new value; its name and stocks and every other sector are kept |
| Portfolio.WithStock | src/App.js:137-140 | only the addressed stock of the addressed sector is replaced; the sector's name, share and other stocks and every other sector are kept |
| Portfolio.WithStockAllocation | src/App.js:135-142 | only the addressed stock's share changes, to the new value; its ticker, its sector's other fields and other stocks, and every other sector are kept |
| Portfolio.WithStockTicker | src/App.js:145-152 | only the addressed stock's ticker changes, to the text entered; its share, its sector's other fields and other stocks, and every other sector are kept |
| Portfolio.WithNewStock | src/App.js:155-162 | the sector gains one stock, `"NEW"` at 0, at the end; its earlier stocks, its name and share and every other sector are kept |
| Portfolio.SpliceStart | src/App.js:167 | where `splice` starts: an index in range is kept, a negative one counts back from the end (no further than 0), one past the end is the end |
| Portfolio.SpliceOne | src/App.js:167 | `splice(start, 1)`: for an index in range, exactly that element goes and later ones move down one; for a negative index, the element that far from the end goes; an index at or past the end removes nothing; an index before the start removes the first element; an empty list stays empty |
| Portfolio.SpliceOneInRange | src/App.js:167 | at an index in range, `splice` leaves the parts before and after that element |
| Portfolio.WithoutStock | src/App.js:165-169 | the addressed sector's stocks become their `splice(stockIndex, 1)`; its name and share and every other sector are kept |
| Portfolio.SectorTotalReplace | src/App.js:98 | replacing one sector moves the sector sum by the difference of the two shares |
| Portfolio.StockTotalReplace | src/App.js:107 | replacing one stock moves the stock sum by the difference of the two shares |
| Portfolio.StockTotalRemove | src/App.js:107 | removing a stock at an index in range takes exactly its share off the stock sum |
| Portfolio.SameAllocationsSameSectorTotal | src/App.js:96-100 | an edit of a sector that keeps its share keeps the sector sum and so the warning |
| Portfolio.SectorAllocationEffect | src/App.js:125-132 | a sector-share edit moves the sector sum by new minus old share, and changes no sector's stock check |
| Portfolio.StockAllocationEffect | src/App.js:135-142 | a stock-share edit moves its sector's stock sum by new minus old share, changes no other sector's stock check, and keeps the sector warning |
| Portfolio.StockTickerEffect | src/App.js:145-152 | a ticker edit changes no stock check and keeps the sector warning |
| Portfolio.NewStockEffect | src/App.js:155-162 | adding `"NEW"` at 0 keeps that sector's stock sum, every stock check and the sector warning |
| Portfolio.RemoveStockEffect | src/App.js:165-169 | removing a stock at an index in range takes its share off its sector's stock sum, changes no other sector's stock check, and keeps the sector warning |
| Seed.InitialSectors | src/App.js:8-89 | the default tree, its eight sectors and their stocks with the source's tickers and shares, in order; a definition whose properties are stated by `StockTotalOf`, `InitialSectorTotal` and `InitialStockChecks` |
| Seed.StockTotalOf | src/App.js:8-89 | the stock sums of the eight default sectors are 1, 1, 0.98, 0.99, 1, 1, 1, 1 |
| Seed.InitialSectorTotal | src/App.js:8-89 | the default sector shares sum to exactly 1, so the warning starts off |
| Seed.InitialStockChecks | src/App.js:103-109 | on the default tree, the stock check flags exactly index 2 (Tech, 0.98) and nothing else, not even an index that names no sector |
| Plan.SectorHoldings | src/App.js:179 | one holding per stock of the sector (the result is as long as the stock list), in stock order; positions are stated by `SectorHoldingsAt` |
| Plan.Holdings | src/App.js:176-179 | the nested `forEach` order: the holdings of each sector in turn, one per stock of the tree (the result has `StockCount` elements); positions are stated by `HoldingAt` and `HoldingOrigin` |
| Plan.Offset | src/App.js:176-179 | where sector i's lines begin: the number of stocks in the sectors before it; a definition whose properties are stated by `HoldingsSplit` and `PlanRuns` |
| Plan.Line | src/App.js:177-190 | the object pushed for one stock; a definition whose fields are stated by `LineAmounts` |
| Plan.LinesOf | src/App.js:174-191 | one line per holding (the result is as long as the holdings); positions are stated by `LinesOfAt` |
| Plan.WeeklyTotal | src/App.js:172 | the total amount over the weeks, for weeks other than 0; a definition whose use in the plan is stated by `CancelWeeks`, `LineAmounts` and `PlanWeeklySum` |
| Plan.WeeklyInvestments | src/App.js:171-195 | `calculateWeeklyInvestments` as a function of the tree, the amount and the weeks; a definition without a contract of its own. `PlanLineAt`, `PlanLineOrigin` and `PlanRuns` pin down every line, `PlanWeeklySum`, `PlanTotalSum` and `Conservation` its sums, and `CalculateWeeklyInvestments` proves the loops compute it |
| Plan.Footer | src/App.js:380-382 | the footer's two figures, the weekly total and the total amount; a definition whose relation to the plan is stated by `Conservation` |
| Plan.SectorHoldingsAt | src/App.js:179-190 | within a sector, the j-th stock visited is stock j, paired with the sector's name and share |
| Plan.LinesOfAt | src/App.js:183-190 | line k is built from holding k |
| Plan.LinesOfConcat | src/App.js:174-191 | the lines of two runs of holdings are the lines of the first followed by those of the second |
| Plan.HoldingsConcat | src/App.js:176-191 | the stocks visited for two runs of sectors are those of the first run followed by those of the second |
| Plan.HoldingsSplit | src/App.js:176-191 | the stocks visited are those of the sectors before i, then sector i's own, then those after; the first part has length `Offset(i)` |
| Plan.HoldingAt | src/App.js:176-191 | the stock visited at position `Offset(i) + j` is stock j of sector i, with sector i's name and share |
| Plan.HoldingOrigin | src/App.js:176-191 | every position visited is `Offset(i) + j` for some stock j of some sector i, and holds that stock |
| Plan.CancelWeeks | src/App.js:172-181 | (total / weeks) × x × weeks is total × x when weeks is not 0 |
| Plan.LineAmounts | src/App.js:177-190 | the line of a stock holds its sector's name and its ticker unchanged, the weekly amount (total / weeks) × sector share × stock share, the total amount total × sector share × stock share (which equals the weekly amount times the weeks), and the two shares times 100 |
| Plan.PlanLineAt | src/App.js:171-195 | the plan has a line at `Offset(i) + j` for stock j of sector i, and it holds what `LineAmounts` states for that stock |
| Plan.PlanLineOrigin | src/App.js:171-195 | every line of the plan is the line of some stock j of some sector i, at position `Offset(i) + j` |
| Plan.PlanRuns | src/App.js:174-191 | sector i's lines fill exactly the positions from `Offset(i)` to `Offset(i + 1)`, one per stock and none for a sector without stocks; the plan has exactly one line per stock of the tree |
| Plan.ShareConcat | src/App.js:177-180 | the money fraction two runs of holdings receive is the sum of the fractions each receives |
| Plan.WeightedConcat | src/App.js:177-180 | the sector-by-sector weighted share of two runs of sectors is the sum of theirs |
| Plan.SectorShare | src/App.js:177-180 | a sector's stocks receive its share times its stock sum |
| Plan.SectorShareIsWeight | src/App.js:177-180 | all of a sector's stocks together receive its weight, its share times its stock sum |
| Plan.ShareIsWeighted | src/App.js:174-191 | summed stock by stock or sector by sector, the fraction of the money handed out is the same |
| Plan.LinesWeeklySum | src/App.js:180-187 | the weekly amounts of the lines of some holdings add up to the weekly total times their fraction of the money |
| Plan.LinesTotalSum | src/App.js:180-188 | the total amounts of those lines add up to the weekly total times their fraction of the money times the weeks |
| Plan.PlanWeeklySum | src/App.js:171-195 | for any shares, the plan's weekly amounts add up to total / weeks times the fraction of the money the stocks receive |
| Plan.PlanTotalSum | src/App.js:171-195 | for any shares, the plan's total amounts add up to the total amount times that fraction |
| Plan.WeightedWhenStocksSumToOne | src/App.js:103-109 | when every sector's stock shares sum to 1, the weighted share is the sector sum |
| Plan.ShareWhenStocksSumToOne | src/App.js:103-109 | when every sector's stock shares sum to 1, the stocks receive exactly the sector sum |
| Plan.Conservation | src/App.js:171-195 | with sector shares summing to 1 and every sector's stocks summing to 1, the weekly amounts add up to the footer's weekly total (`totalAmount / weeksToInvest`, line 381) and the total amounts to the footer's total amount (line 382) |
| Plan.SectorWeightBounds | src/App.js:103-109 | a sector with a non-negative share whose stocks pass the check receives between 0.99 and 1.01 times its share |
| Plan.WeightedBounds | src/App.js:103-109 | with non-negative sector shares and every stock check off, the weighted share lies between 0.99 and 1.01 times the sector sum |
| Plan.NoWarningsShare | src/App.js:96-109 | with the sector warning off, every stock check off and no negative sector share, the stocks receive between 98.01% and 102.01% of the money |
| Plan.NoWarningsBoundsPlan | src/App.js:171-195 | under those conditions and a non-negative amount, the plan's total amounts add up to between 98.01% and 102.01% of the amount |
| Plan.NegativeShareEscapesBounds | src/App.js:250-251 | the premise that no sector share is negative is needed: `min="0"` only limits the spinner, and a tree whose shares are 10 and -9, with stock sums 1.01 and 0.99, passes both checks while its stocks receive 119% of the money |
| Plan.SectorHoldingsAppend | src/App.js:155-162 | appending a stock to a sector appends its holding to that sector's run |
| Plan.SectorHoldingsRemove | src/App.js:165-169 | removing stock j from a sector removes holding j from that sector's run |
| Plan.SectorHoldingsReplace | src/App.js:135-152 | replacing stock j of a sector replaces holding j of that sector's run |
| Plan.HoldingsReplaceStocks | src/App.js:125-169 | changing only sector i's stocks changes only the middle run of the holdings |
| Plan.AddStockHoldings | src/App.js:155-162 | adding `"NEW"` to sector i inserts exactly one holding, at `Offset(i)` plus the sector's stock count, the end of its run |
| Plan.WithoutStockInRange | src/App.js:165-169 | at an index in range, the removal is the sector with that one stock left out |
| Plan.RemoveStockHoldings | src/App.js:165-169 | removing stock j of sector i removes exactly the holding at `Offset(i) + j` |
| Plan.RemovedFromRun | src/App.js:165-169 | at an index in range, the removal changes only sector i's run of holdings, which loses holding j |
| Plan.ReplaceStockHoldings | src/App.js:135-152 | replacing stock j of sector i replaces exactly the holding at `Offset(i) + j` |
| Plan.LinesOfInsert | src/App.js:174-191 | one holding inserted gives one line inserted at the same position |
| Plan.LinesOfRemove | src/App.js:174-191 | one holding removed gives that one line removed |
| Plan.LinesOfReplace | src/App.js:174-191 | one holding replaced gives that one line replaced |
| Plan.SumsConcat | src/App.js:380-382 | the weekly and total sums of two runs of lines are the sums of their sums |
| Plan.SumsInsert | src/App.js:380-382 | inserting a line adds its two amounts to the two sums |
| Plan.SumsRemove | src/App.js:380-382 | removing a line takes its two amounts off the two sums |
| Plan.SumsReplace | src/App.js:380-382 | replacing a line moves the two sums by the difference of the amounts |
| Plan.AddStockPlan | src/App.js:155-162 | after adding `"NEW"` to sector i, the plan is the old plan with one line inserted at the end of sector i's run: the sector's name, ticker `"NEW"`, amounts 0, the sector's percentage and 0% |
| Plan.AddStockSums | src/App.js:155-162 | adding `"NEW"` leaves both sums of the plan unchanged |
| Plan.RemoveStockPlan | src/App.js:165-169 | after removing stock j of sector i, the plan is the old plan without the line at `Offset(i) + j` |
| Plan.RemoveStockSums | src/App.js:165-169 | removing a stock takes exactly its line's amounts off both sums |
| Plan.LineTicker | src/App.js:183-190 | a line with another ticker differs from the old line only in its ticker |
| Plan.TickerPlan | src/App.js:145-152 | a ticker edit changes exactly the ticker of that stock's line and nothing else in the plan |
| Plan.StockAllocationPlan | src/App.js:135-142 | a stock-share edit changes only the line at `Offset(i) + j`, and that line describes the edited stock under `LineAmounts` |
| Plan.StockAllocationSums | src/App.js:135-142 | a stock-share edit moves both sums by exactly the difference between the new and old amounts of that one line |
| Plan.SectorAllocationPlan | src/App.js:125-132 | a sector-share edit changes no line outside sector i's run, and every line of the run describes its stock under the new sector share |
| Plan.WeightedMiddle | src/App.js:177-180 | the weighted share of a run with one sector in the middle is the sum of the three parts |
| Plan.WeightedReplace | src/App.js:125-132 | replacing one sector moves the weighted share by the difference of the two sectors' weights |
| Plan.SectorWeightChange | src/App.js:177-180 | setting a sector's share moves its weight by new minus old share, times its stock sum |
| Plan.SectorAllocationShare | src/App.js:125-132 | a sector-share edit moves the fraction of the money the plan hands out by exactly the change of that sector's weight |
| Calculator.LinesStep | src/App.js:179-190 | one more stock of the current sector adds its line at the end of the lines built so far |
| Calculator.LinesSectorDone | src/App.js:176-191 | before sector i's stocks, the lines built so far are those of the earlier sectors; after them, those of the first i + 1 sectors |
| Calculator.InvestmentCalculator.constructor | src/App.js:4-94 | the component starts with 75000 over 12 weeks, the default tree and the warning off, which is what the effect computes for that tree |
| Calculator.InvestmentCalculator.RefreshWarning | src/App.js:96-100 | the effect: the warning becomes the sector-sum check of the current tree |
| Calculator.InvestmentCalculator.SetTotalAmount | src/App.js:209 | the total amount becomes the entry clamped at 0, so it is never negative; the warning stays in step with the tree |
| Calculator.InvestmentCalculator.SetWeeksToInvest | src/App.js:219 | the weeks become the entry, unclamped; the warning stays in step with the tree |
| Calculator.InvestmentCalculator.UpdateSectorAllocation | src/App.js:125-132 | the tree becomes `WithSectorAllocation` of the parsed value or 0; the warning is then on exactly when the old sector sum, minus the old share, plus the new one, is outside the tolerance |
| Calculator.InvestmentCalculator.UpdateStockAllocation | src/App.js:135-142 | the tree becomes `WithStockAllocation` of the parsed value or 0; the warning stays as it was and in step with the tree |
| Calculator.InvestmentCalculator.UpdateStockTicker | src/App.js:145-152 | the tree becomes `WithStockTicker` of the text entered; the warning stays as it was |
| Calculator.InvestmentCalculator.AddStockToSector | src/App.js:155-162 | the tree becomes `WithNewStock`; the warning stays as it was |
| Calculator.InvestmentCalculator.RemoveStockFromSector | src/App.js:165-169 | the tree becomes `WithoutStock` for any index `splice` accepts; the warning stays as it was |
| Calculator.InvestmentCalculator.CalculateWeeklyInvestments | src/App.js:171-195 | the two nested loops return exactly `WeeklyInvestments` of the current tree, amount and weeks, so every `Plan` lemma above holds of their result |

## Left out

- Rendering: the JSX tables, the inputs and the edit toggles are left out. The editing indices `editingSectorIndex` and `editingStockIndex` (lines 92-93) are also left out. The sector index they supply to the stock handlers is a parameter of the model's methods.
- React's state and effect machinery: each `setSectors` is modelled as an assignment to `sectors`, followed by the refresh the effect at lines 96-100 performs.
- Display formatting: `formatCurrency` (lines 111-118), `formatPercent` (lines 120-122), and the `toFixed(1)` of the plan's percentages (lines 371-372) only change how numbers are shown.
- Floating point: numbers are exact reals, so IEEE-754 rounding of the sums is not modelled. This changes one answer on the default tree. Energy's stocks (0.33 three times) sum to exactly 0.99 here, which is within the tolerance. In doubles the sum is also printed as 0.99, but `Math.abs(0.99 - 1)` is 0.010000000000000009, which is more than 0.01. So the program flags Energy (index 3) as well as Tech, while `Seed.InitialStockChecks` flags only Tech. The other default sums, the sector total among them, come out the same in doubles.
- Addition order: with reals the order of the additions does not matter. The sums are written from the front, and `StockTotalStep` and `SectorTotalStep` state the left-to-right step of `reduce`.
- String parsing: the handlers take `parseFloat`'s outcome as an `Option<real>`, where `None` is `NaN`, and the amount and weeks entries as a number. The text-to-number conversion itself is not modelled.
- Input scaling: the `/ 100` the inputs apply before calling the share handlers (lines 250 and 312) is the caller's; the handlers receive the fraction.
- Plan.WeeklyInvestments: defined only for a number of weeks other than 0. The source divides by zero there and yields `Infinity` or `NaN` lines, which exact reals cannot represent.
- Calculator.InvestmentCalculator.CalculateWeeklyInvestments: requires a number of weeks other than 0, for the same reason. Negative weeks are allowed, as in the source.
- Index preconditions: the sector and stock indices of the handlers must be in range. The source only calls them with the indices of rendered rows. The exception is the stock index of `removeStockFromSector`, where every index `splice` accepts is modelled.
- Portfolio.SpliceOne: a fractional or `NaN` index cannot occur, because the index is an integer.
- Aliasing: `[...sectors]` copies only the outer array. The stock handlers (lines 135-169) therefore also change the nested stock lists that the previous state shares. The model has value semantics and keeps the old tree intact. The new tree it computes is the same.
- Calculator.InvestmentCalculator.CalculateWeeklyInvestments: the loop body computes each line through `Plan.Line`, which performs the same multiplications as lines 177-181 in the same order.
- Plan.SectorAllocationShare: states the change of the share of the money a sector-share edit causes, not the change of the plan's total sum. That change is the amount times the share change, by `Plan.PlanTotalSum`.
