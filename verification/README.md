# Mock data of the partner financial-performance dashboard

`financial.js` builds every number its dashboard shows from one seeded
pseudo-random generator. The datasets are evaluated when the module loads:

- `rng = mulberry32(42)` is a closure over a 32-bit accumulator.
- `pick(min, max)` scales the next draw into an integer range.
- Four fixed-shape datasets each take the next draws of that one stream, in
  declaration order:
  - the stacked monthly net-net revenue by partner category;
  - the quarterly treemap;
  - the month-over-month margins;
  - the month-to-date blocks.
- Three waterfalls fold over the partner categories with a running total,
  one per margin key.
- `WaterfallChart` turns a waterfall into rows meant for a waterfall chart
  (an invisible baseline bar under a visible change bar), a y-axis domain,
  and a "Cumulative" line. The two bars are given no `stackId`, so Recharts
  draws them side by side rather than stacked.

The model has six modules.

- `Mulberry32`
  - Represents a draw by its numerator `n`. The number the source returns
    is `n / 2^32`.
  - Defines the stream `Draw(seed, i)` bit for bit on `bv32`.
  - Holds the closure as the class `Generator`. Its `a` field is updated in
    place by `Next`.
- `Sampler`: `pick` as a pure function of a numerator, plus the method
  that draws and then scales.
- `Datasets`: the four fixed-shape datasets.
  - Each is specified by a function of the numerators it consumes.
  - Each is built by a method whose loop draws from the shared generator.
    The method is proved to return that function of the window of the
    stream it consumed.
- `Waterfall`: `buildWaterfall`, with `cum` kept in a local variable of the
  loop and the parts' chain proved about the specifying function.
- `WaterfallChart`: the rows, the axis domain and the cumulative line.
- `MockData`: the whole module load. The datasets take consecutive,
  non-overlapping windows of a single stream of 184 draws.

## Model

| member | source | states |
|---|---|---|
| Mulberry32.MixStep | financial.js:38 | the three lines that follow the state update, one per index, on 32-bit words: no contract of its own; pinned by `DrawIsMix` and `SeedFortyTwoOpening` |
| Mulberry32.MixSteps | financial.js:38 | the first `r` of those lines applied in order: no contract of its own; pinned by `DrawIsMix` and `SeedFortyTwoOpening` |
| Mulberry32.Mix | financial.js:38 | the output numerator of a freshly advanced state, all three lines in order: no contract of its own; `SeedFortyTwoOpening` pins its values on the first three states of seed 42 and `DrawIsMix` ties every draw to it |
| Mulberry32.StateAfter | financial.js:38 | the accumulator after `k` draws, one `a += 0x6D2B79F5` per draw: no contract of its own; `StateAfterAdd` states how advances compose |
| Mulberry32.Draw | financial.js:38-39 | the numerator of draw `i` of a seed: no contract of its own; `DrawIsMix` states it is `Mix` of the seed advanced `i + 1` times |
| Mulberry32.Value | financial.js:38 | a draw `n / 4294967296` lies in [0, 1) |
| Mulberry32.Draws | financial.js:38-39 | `k` draws from position `c` of a seed's stream, one per position (the contract states the count; `DrawsSplit` and `DrawsSlice` state how runs combine) |
| Mulberry32.StateAfterAdd | financial.js:38 | adding the increment `j` times, then `k` times, is adding it `j + k` times |
| Mulberry32.DrawIsMix | financial.js:38 | draw `i` is the fixed mixing function applied to the seed advanced `i + 1` times by 0x6D2B79F5 |
| Mulberry32.DrawsFromState | financial.js:38-39 | after `c` draws the generator continues exactly as one seeded with the state it reached: the output depends on the state alone |
| Mulberry32.DrawsSplit | financial.js:39 | drawing `j + k` numerators is drawing `j`, then the next `k`: consumers of the shared `rng` see consecutive windows of one stream |
| Mulberry32.DrawsSlice | financial.js:39 | every window of a run of draws is itself the run of draws at that offset |
| Mulberry32.SeedFortyTwoOpening | financial.js:38-39 | seed 42 opens with numerators 2581720956, 1925393290, 3661312704 |
| Mulberry32.Generator.constructor | financial.js:38-39 | `mulberry32(seed)` starts with state `seed` and no draws made |
| Mulberry32.Generator.Next | financial.js:38 | one call advances the state by one increment and returns the next draw of the seed's stream |
| Sampler.Round | financial.js:41 | `Math.round` is the integer within half of `x`, ties going up |
| Sampler.Scale | financial.js:41 | `round(min + (max-min)*v)` for `v` in [0, 1) lies between the bounds, in either order of the bounds |
| Sampler.PickValue | financial.js:41 | `pick(min, max)` returns an integer in [min, max] (or [max, min] when the bounds are swapped) |
| Sampler.PickReachesBounds | financial.js:41 | the smallest numerator picks `min` and the largest picks `max`, for ranges at most 2^31 wide |
| Sampler.Pick | financial.js:41 | `pick` consumes exactly one draw and returns the scaled value of that draw |
| Datasets.CategoriesDistinct | financial.js:24-33 | there are eight partner categories and no label repeats |
| Datasets.MonthlyRowOf | financial.js:45-47 | a monthly row keeps its month and holds exactly the eight categories in order, each in [8000, 38000] |
| Datasets.MonthlyRows | financial.js:44-48 | the first `m` rows are for Jan onwards in order, each covering every category with an amount in [8000, 38000] |
| Datasets.MonthlyRowsWindows | financial.js:44-48 | row `j` is built from draws `8j` to `8j + 7` |
| Datasets.MonthlyRowsDrawOrder | financial.js:44-48 | the amount of category `i` in month `j` is the pick of draw `8j + i` |
| Datasets.BuildMonthlyRow | financial.js:45-47 | filling a row in place consumes eight draws and gives the row of those draws |
| Datasets.BuildStackedMonthlyNNR | financial.js:44-48 | `stackedMonthlyNNR` consumes 48 draws and is the six-row dataset of them |
| Datasets.StackedMonthlyNNR | financial.js:44-48 | `stackedMonthlyNNR` has six rows, Jan to Jun in order, each with exactly the eight categories in order and every amount in [8000, 38000] |
| Datasets.QuarterOf | financial.js:51-54 | a quarter node keeps its name and has one child per category in order, each size in [80000, 320000] |
| Datasets.QuarterNodes | financial.js:51-54 | the first `k` nodes are Q1 onwards in order, each covering every category with a size in [80000, 320000] |
| Datasets.QuarterNodesWindows | financial.js:51-54 | node `q` is built from draws `8q` to `8q + 7` |
| Datasets.QuarterNodesDrawOrder | financial.js:51-54 | the size of category `i` in quarter `q` is the pick of draw `8q + i` |
| Datasets.BuildQuarter | financial.js:52-53 | one quarter consumes eight draws and gives the node of those draws |
| Datasets.BuildQuarterlyTreemap | financial.js:51-54 | `quarterlyTreemap` consumes 32 draws and is the four-node dataset of them |
| Datasets.QuarterlyTreemap | financial.js:51-54 | `quarterlyTreemap` has four nodes, Q1 to Q4 in order, each with one child per category in order and every size in [80000, 320000] |
| Datasets.MarginRowOf | financial.js:57-62 | a margin row keeps its month, with gross in [18, 42], net in [10, 30] and netnet in [6, 22] |
| Datasets.MarginRows | financial.js:57-62 | the first `m` rows are for Jan onwards in order, each with its margins in range |
| Datasets.MarginRowsWindows | financial.js:57-62 | row `j` is built from draws `3j` to `3j + 2` |
| Datasets.MarginRowsDrawOrder | financial.js:57-62 | gross, net and netnet of month `j` are picked from draws `3j`, `3j + 1` and `3j + 2`, in the order the literal lists them |
| Datasets.BuildMarginRow | financial.js:57-62 | one margin row consumes three draws and gives the row of those draws |
| Datasets.BuildMarginMoM | financial.js:57-62 | `marginMoM` consumes 36 draws and is the twelve-row dataset of them |
| Datasets.MarginMoM | financial.js:57-62 | `marginMoM` has twelve rows, Jan to Dec in order, every margin in its range |
| Datasets.MtdBlockOf | financial.js:67-74 | a block is labelled `<month> (MTD)` and has each of its five figures in its stated range |
| Datasets.MtdBlocks | financial.js:65-75 | the first `m` blocks are labelled for Jan onwards in order, with every figure in range |
| Datasets.MtdBlocksWindows | financial.js:65-75 | block `j` is built from draws `5j` to `5j + 4` |
| Datasets.MtdBlocksDrawOrder | financial.js:67-74 | gross, net, netnet, tpv and target of month `j` are picked from draws `5j` to `5j + 4`, in that order |
| Datasets.BuildMtdBlock | financial.js:67-74 | one block consumes five draws and gives the block of those draws |
| Datasets.GenMtdCumulative | financial.js:65-76 | `genMTDCumulative()` consumes 20 draws and is the four-block dataset of them |
| Datasets.MtdCumulative | financial.js:65-76 | `mtdBlocks` has four blocks labelled "Jan (MTD)" to "Apr (MTD)" in order, every figure in its range |
| Waterfall.Sign | financial.js:96 | the sign is +1 exactly when the draw's numerator is at least 858993460, that is, when the draw exceeds 0.2, and -1 otherwise |
| Waterfall.Multiplier | financial.js:98 | the key's multiplier lies in [1, 1.6] |
| Waterfall.Delta | financial.js:96-99 | a step rises by between one and eight multipliers when its sign draw is at least `RisingFrom`, and falls by as much otherwise |
| Waterfall.Cum | financial.js:94-101 | the value of `cum` after `k` categories: no contract of its own; `CumBounds`, `CumIsSum` and `PartsValues` state what it is |
| Waterfall.CumBounds | financial.js:94-101 | after `k` categories `cum` lies within `8k` multipliers of 0 |
| Waterfall.Parts | financial.js:95-103 | the first `k` categories give `k` parts |
| Waterfall.PartsChain | financial.js:94-104 | parts are named by the categories in order; each ends at start + value; the first starts at 0; each later one starts where the previous ended; the last ends at `cum` |
| Waterfall.PartsValues | financial.js:94-102 | part `i` is named by category `i`, starts at `cum` after `i` categories, has the value `sign * base * mult` of draws `2i` and `2i + 1`, and ends at `cum` after `i + 1` categories |
| Waterfall.PartsSigns | financial.js:96-99 | part `i` is negative exactly when its sign draw `2i` is below `RisingFrom` (the draw is at most 0.2), and its size is one to eight multipliers |
| Waterfall.SumValues | financial.js:95-104 | the sum of the parts' values, the reference `CumIsSum` and `WaterfallTotal` compare `cum` with: no contract of its own |
| Waterfall.WaterfallOf | financial.js:93-105 | the label passes through unchanged, there are eight parts, and the total is the last part's end |
| Waterfall.CumIsSum | financial.js:94-101 | the running total is the sum of the values of the parts so far |
| Waterfall.DeltaScales | financial.js:98-99 | over the same draws, a step of any key is that key's multiplier times the "netnet" step |
| Waterfall.CumScales | financial.js:94-101 | over the same draws, every running total of any key is that key's multiplier times the "netnet" one |
| Waterfall.WaterfallTotal | financial.js:93-109 | the total is the sum of the part values, and equals the key's multiplier times the "netnet" total over the same draws |
| Waterfall.NextPart | financial.js:95-102 | one category consumes two draws (sign, then base), starts at `cum`, and moves `cum` by its value |
| Waterfall.BuildWaterfall | financial.js:93-105 | `buildWaterfall` consumes sixteen draws and returns the waterfall of them |
| WaterfallChart.Min | financial.js:153 | `Math.min` of two numbers is the smaller of them |
| WaterfallChart.Max | financial.js:157 | `Math.max` of two numbers is the larger of them |
| WaterfallChart.ChartRows | financial.js:151-155 | one row per part, in order, keeping the name and the value; the baseline is the lower of the part's start and end |
| WaterfallChart.LowestEdge | financial.js:156 | the minimum over 0 and every edge of every part: a lower bound that is 0 or some edge |
| WaterfallChart.HighestEdge | financial.js:157 | the maximum over 0 and every edge of every part: an upper bound that is 0 or some edge |
| WaterfallChart.DomainMin | financial.js:156 | `domainMin <= -2` and lies at least 2 below every row's baseline |
| WaterfallChart.DomainMax | financial.js:157 | `domainMax >= 2` and lies at least 2 above every part's higher edge |
| WaterfallChart.DomainIsTight | financial.js:156-157 | each end of the domain is either the default ±2 or exactly 2 beyond some part's edge |
| WaterfallChart.CumulativeLineAsWritten | financial.js:170 | the "Cumulative" line has one point per row |
| WaterfallChart.CumulativeLineAsWrittenMisses | financial.js:170 | for chained parts, the line as written meets the running total at a part exactly when that part does not fall |
| WaterfallChart.FallingStepMisplotted | financial.js:170 | a first part falling from 0 to -2 is plotted at -4 |
| WaterfallChart.CumulativeLine | financial.js:170 | the intended line has one point per row |
| WaterfallChart.CumulativeLineFollowsTotal | financial.js:170 | for chained parts, the intended line passes through every part's end and stays strictly inside the axis domain |
| WaterfallChart.WaterfallLineEndsAtTotal | financial.js:93-105 | a waterfall from `buildWaterfall` is chained, and its intended line ends at the waterfall's total |
| MockData.ConstantsOf | financial.js:37-109 | the module's constants for a seed: six monthly rows, four quarters, twelve margin rows, four MTD blocks, and three waterfalls labelled "Selected Month" with one part per category |
| MockData.WindowsTileStream | financial.js:44-109 | the seven datasets' windows tile the first 184 draws in declaration order, with none skipped or shared |
| MockData.BuildDatasets | financial.js:44-76 | the four fixed-shape datasets consume the first 136 draws of a fresh generator, 48, 32, 36 and 20 in turn |
| MockData.BuildWaterfalls | financial.js:107-109 | the netnet, net and gross waterfalls consume the next 48 draws, 16 each, in that order |
| MockData.Load | financial.js:37-109 | loading the module gives exactly the constants of the seed's stream |
| MockData.FirstAmount | financial.js:39-46 | with seed 42, Jan's "Alliance Partner" amount is 26033 |

## Left out

- Rendering is not modelled: the React and Recharts components, the JSX of `WaterfallChart`, the dashboard component and its filter state. They are presentation over libraries that are loaded at run time.
- `fmtCurrency` is not modelled, because it depends on the host's locale through `toLocaleString`.
- The palette and its colour lookup are not modelled; they are a constant lookup inside render code.
- Floating point is not modelled: `(max-min)*rng()`, `base * mult * sign` and the chart's sums are taken over exact reals, so IEEE-754 rounding is not captured. A draw `n / 2^32` is exact in a double, so `rng() > 0.2` is decided by the numerator alone, and `RisingFrom` is the threshold it gives.
- The "~20% negative" remark beside the sign draw is a statement about a distribution and is not modelled.
- Mulberry32.Generator: the source's accumulator `a` is an unbounded number that every use reads through ToInt32 or ToUint32. It is kept here as its 32-bit residue. The two agree as long as `a` stays below 2^53, which the 184 draws of the module stay far from.
- MockData.Load takes the seed as a parameter; the module uses it with `Seed` (42).
- Sampler.PickReachesBounds requires the range to be at most 2^31 wide. For a wider range the largest draw lands more than half below `max` and rounds to less than `max`; every range in the module is far narrower.
- Datasets.MonthlyRowOf: a row is an ordered list of category amounts. The source's JavaScript object also has a `month` key, kept as a field. Key lookup by name is not modelled; `CategoriesDistinct` shows that each category appears once.

## Findings

| source | as written | input that shows it | evidently intended | confidence | as-written member | corrected member |
|---|---|---|---|---|---|---|
| financial.js:170 | the "Cumulative" line plots `baseline + delta` | a falling part, e.g. the first part `{start: 0, value: -2, end: -2}` whenever the first sign draw is at most 0.2: its row has baseline -2 and delta -2, so the point is at -4 instead of the running total -2 | the line follows the running total, that is, each part's `end` (`baseline + max(delta, 0)`) | not executed | WaterfallChart.CumulativeLineAsWritten | WaterfallChart.CumulativeLine |
