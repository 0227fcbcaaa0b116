# crypto-dashboard, modelled in Dafny

This project models the data logic of a browser dashboard for mock cryptocurrency
portfolios. The logic is:

- **Portfolio aggregation** (`src/lib/metrics.js`). Holdings are grouped by symbol in
  first-seen order, with summed quantities and a quantity-weighted average cost.
  The totals, profit and loss, and the allocation list sorted by value are computed
  from those groups.
- **Seeded price series.** The `mulberry32` generator, the range table, the volatility
  table and the clamped random walk appear in `src/components/PricePanel.jsx` and
  again in `src/hooks/useMockLivePrices.js`. The model covers:
  - the fallback series;
  - the validity check on supplied series;
  - the wallet value chart;
  - the mock history table;
  - the live-price tick with its status machine and its one-render-lag
    `prevPrices`.
- **Trade history.**
  - Both copies of the seeded trade generator: `src/data/mockData.js` and
    `src/components/TradeHistoryTable.jsx`.
  - The padding that merges older generated trades into a short supplied history.
  - The query and side filter, the column sort, pagination, and the sort toggle.
- **Small derivations**:
  - the rows and colour tones of `HoldingsTable.jsx`;
  - the wallet cards and pills of `WalletBalances.jsx`;
  - `clamp`;
  - `makeSeries` and `MOCK_SERIES`;
  - the `MOCK_WALLETS` and `INITIAL_PRICES` fixtures.

There is one module per source file, plus shared modules:
- `Wrappers`: `Option`, and the `?.` and `??` lookups.
- `Utils`: `clamp` and the `"pos"`/`"neg"`/`""` tone.
- `Wallets`: wallets and holdings.
- `Text`: lower-casing, trimming, substring, digit strings, code-point order.
- `Mulberry`: the generator over `bv32`.
- `PriceWalk`: the range table, `volFor` and the clamped walk. These are shared by the
  two files that copy them.
- `StableSort`: the engine's `Array.prototype.sort`, as a stable insertion sort whose
  properties are proved.

Modelling choices:
- **Inputs.** Prices are reals. Timestamps are integer milliseconds. `Date.now()`
  becomes a parameter `now`. `Math.random()` draws become inputs in `[0, 1)`.
- **Mutable state.** The hook's state and the table's state are classes. Their
  methods are the effects and the event handlers.
- **Where the source loops.**
  - The loops of `computeHoldings`, `computePortfolio`, `generateFallbackSeries`,
    `generateSeriesForRange`, `buildMockHistorySeries`, `buildWalletSeries`,
    `makeSeries`, both `generateMockTrades` and the tick are methods.
  - Each of those methods is proved equal to a specification function.
  - The properties are proved about those functions.

Behaviour of the code worth noting:
- **`prevPrices`** is the map from before the most recent tick only in the render
  right after that tick. A render with no tick in between reports the current prices
  (`MockLivePrices.LivePriceFeed.Render`).
- **Unknown ranges.** `isValidRangeSeries` accepts any series of two or more entries
  for a range name outside the range table that is not an `Object.prototype`
  property.
- **Average cost** is 0 whenever the summed quantity is not positive, including a
  negative one.

## Model

| member | source | states |
|---|---|---|
| Utils.Clamp | src/lib/utils.js:24-26 | for `lo <= hi` the result lies in `[lo, hi]`, equals `v` inside it, `lo` below it and `hi` above it; for `lo > hi` it is `hi` |
| Utils.ClampIdempotent | src/lib/utils.js:24-26 | clamping twice gives the same as clamping once |
| Utils.Compare | src/components/HoldingsTable.jsx:53-54 | the tone is `"pos"` exactly when the first value is larger, `"neg"` exactly when smaller, neutral exactly when equal |
| Utils.CompareSwap | src/components/WalletBalances.jsx:86 | comparing the other way round swaps `"pos"` and `"neg"` and keeps neutral |
| Wallets.PriceOr | src/lib/metrics.js:27 | `prices[symbol] ?? fallback`: the listed price, else the fallback |
| Text.ToLower | src/components/TradeHistoryTable.jsx:104 | same length, each ASCII upper-case letter becomes its lower-case letter (code plus 32), every other character unchanged |
| Text.ToLowerIdempotent | src/components/TradeHistoryTable.jsx:104 | lower-casing twice is lower-casing once |
| Text.Trim | src/components/TradeHistoryTable.jsx:104 | the result is the input with exactly its leading and trailing white space removed: a slice with only white space before and after it and none at either of its ends, empty exactly when the input is all white space |
| Text.DecimalRoundTrip | src/data/mockData.js:70 | reading back the decimal digits of `idx` gives `idx` |
| Text.DigitPrefixOf | src/data/mockData.js:70 | the leading digits of `digits + rest` are `digits` when `rest` starts with a non-digit |
| Text.LexLeTotal | src/components/TradeHistoryTable.jsx:126 | the string order compares any two strings |
| Text.LexLeTrans | src/components/TradeHistoryTable.jsx:126 | the string order is transitive |
| Text.LexLeAntisym | src/components/TradeHistoryTable.jsx:126 | two strings ordered both ways are equal |
| Mulberry.ToInt32 | src/components/PricePanel.jsx:30 | `x \| 0` is the signed 32-bit value congruent to `x` modulo 2^32 |
| Mulberry.DrawAt | src/components/PricePanel.jsx:7-13 | the k-th draw after seeding lies in `[0, 1)` |
| Mulberry.OutputOnGrid | src/components/PricePanel.jsx:12 | every draw is an unsigned 32-bit integer divided by 2^32 |
| Mulberry.Draws | src/components/PricePanel.jsx:7-13 | the first n draws from a seed: n of them, each the k-th draw, each in `[0, 1)` |
| Mulberry.DrawsWindow | src/components/PricePanel.jsx:7-13 | a window of the draw sequence is the sequence restarted at the window's first call: draws depend only on the seed and the number of earlier calls |
| Mulberry.Generator.constructor | src/components/PricePanel.jsx:7-8 | `mulberry32(seed)` starts from the low 32 bits of the seed with no calls made |
| Mulberry.Generator.Next | src/components/PricePanel.jsx:8-13 | each call returns the next draw of the seeded sequence and counts one call |
| PriceWalk.RangeConfig | src/components/PricePanel.jsx:16-25 | exactly 1D, 1W, 1M and 1Y are configured, each with at least two points, and points times step is the range's window in days |
| PriceWalk.VolFor | src/components/PricePanel.jsx:33-37 | the volatility is positive and at most 0.066 |
| PriceWalk.VolGrowsWithRange | src/components/PricePanel.jsx:35 | for one symbol the volatility grows strictly from 1D to 1W to 1M to 1Y, and an unknown range gets the 1Y multiplier |
| PriceWalk.StablecoinCalmest | src/components/PricePanel.jsx:34 | USDC has the smallest volatility for every range, strictly smaller than any other symbol's |
| PriceWalk.PerturbBounds | src/components/PricePanel.jsx:50-51 | before the clamp a step multiplies the price by a factor in `[1 - vol/2, 1 + vol/2)` |
| PriceWalk.StepPrice | src/components/PricePanel.jsx:52 | after the clamp USDC lies in `[0.995, 1.005]` and other symbols are at least 0.01; an in-band price is kept, and one out of band goes to the bound it crossed |
| PriceWalk.Walk | src/components/PricePanel.jsx:47-54 | the walk has one price per draw, every one in its symbol's band |
| PriceWalk.WalkPrefix | src/components/PricePanel.jsx:47-54 | walking a prefix of the draws gives the prefix of the walk |
| PriceWalk.WalkSteps | src/components/PricePanel.jsx:50-52 | each price is the clamped step from the previous price, the first one from the start price |
| PriceWalk.WalkSnoc | src/components/PricePanel.jsx:50-53 | one more draw appends one clamped step from the last price |
| PriceWalk.LoopStep | src/components/PricePanel.jsx:47-54 | one loop iteration extends the walk over the draws so far by one step |
| PriceWalk.TimelineSnoc | src/components/PricePanel.jsx:53 | one more value appends one point at the next timestamp |
| PriceWalk.StampFromEnd | src/components/PricePanel.jsx:48 | `now - i*stepMs` is the timestamp of point `points-1-i` |
| PriceWalk.GenerateWalk | src/hooks/useMockLivePrices.js:41-57 | the loop over `i = points-1 .. 0` yields exactly the specified walk series |
| PriceWalk.StampIncreasing | src/components/PricePanel.jsx:48 | later points are later by a whole number of steps |
| PriceWalk.TimelineShape | src/components/PricePanel.jsx:47-48 | the last timestamp is `now`, the first is `now - (points-1)*stepMs`, neighbours are one step apart, and timestamps strictly increase |
| PriceWalk.WalkSeriesShape | src/hooks/useMockLivePrices.js:44-55 | a walk series has `points` points, oldest first, strictly increasing times ending at `now`, and every value in band |
| PriceWalk.WalkSeriesNowOnlyShifts | src/components/PricePanel.jsx:41-53 | changing the clock shifts every timestamp by the same amount and leaves every value unchanged |
| PricePanel.SeedFrom | src/components/PricePanel.jsx:27-31 | `(31*codes(sym) + 97*codes(range)) \| 0`: a signed 32-bit value congruent to the sum |
| PricePanel.FallbackConfig | src/components/PricePanel.jsx:40 | a known range uses its own configuration and any other range uses 1D |
| PricePanel.GenerateFallbackSeries | src/components/PricePanel.jsx:39-57 | the loop yields exactly the fallback series of the symbol, range and start price |
| PricePanel.FallbackSeriesShape | src/components/PricePanel.jsx:39-57 | `points` points, 288 five minutes apart for an unknown range, strictly increasing and ending at `now`, every value in band |
| PricePanel.FallbackPricesIgnoreNow | src/components/PricePanel.jsx:41-53 | the fallback values depend on symbol, range and start price only; `now` only shifts the timestamps |
| PricePanel.FiniteTimes | src/components/PricePanel.jsx:68 | a timestamp is kept exactly when some entry has it present, and there are at most as many as entries |
| PricePanel.FiniteTimesAppend | src/components/PricePanel.jsx:68 | the filter keeps entry order: the timestamps of two stretches of entries are those of the first followed by those of the second |
| PricePanel.MinOf | src/components/PricePanel.jsx:71 | `Math.min(...times)` is an element no greater than any other |
| PricePanel.MaxOf | src/components/PricePanel.jsx:72 | `Math.max(...times)` is an element no smaller than any other |
| PricePanel.ValidityInIntegers | src/components/PricePanel.jsx:59-82 | valid exactly when the series exists with two or more entries and either the range is unknown, or it has two or more finite times, at least `max(20, floor(0.6*points))` entries and `4*span >= 3*(points-1)*stepMs` |
| PricePanel.FloorOfFifth | src/components/PricePanel.jsx:76 | `floor(points*0.6)` is the integer `3*points / 5` |
| PricePanel.TooShortIsInvalid | src/components/PricePanel.jsx:60 | a missing series or one with fewer than two entries is invalid |
| PricePanel.UnknownRangeAcceptsAny | src/components/PricePanel.jsx:62-63 | for an unknown range any series with two or more entries is valid |
| PricePanel.FiniteTimesOfPoints | src/components/PricePanel.jsx:68 | every timestamp of a generated series is finite, in order |
| PricePanel.MinMaxOfIncreasing | src/components/PricePanel.jsx:71-73 | in increasing times the minimum is the first and the maximum the last |
| PricePanel.FallbackIsValid | src/components/PricePanel.jsx:39-82 | for every known range the fallback series passes the validity check |
| Wrappers.Get | src/components/PricePanel.jsx:86 | `m?.[k]` is present exactly when the map exists and holds the key, and then it is the stored entry |
| PricePanel.PriceAt | src/components/PricePanel.jsx:106 | the supplied value at `i` when there is one, else the fallback's value at `i`, else 0 when the fallback is shorter than `i + 1` |
| PricePanel.FallbacksFor | src/components/PricePanel.jsx:99-105 | exactly the wallet's symbols get a fallback series |
| PricePanel.FallbacksForEntries | src/components/PricePanel.jsx:101-105 | each held symbol's fallback starts from `prices?.[symbol] ?? 100` |
| PricePanel.ValueAtSnoc | src/components/PricePanel.jsx:99-108 | the wallet value at `i` grows by each holding's quantity times its price at `i` |
| PricePanel.ComputeBaseTimeline | src/components/PricePanel.jsx:86-94 | the timeline is the supplied BTC series when it is valid, else the BTC fallback from `prices?.BTC ?? 50000` |
| PricePanel.ValuesAlong | src/components/PricePanel.jsx:96-111 | one output point per timeline point, with its time and the wallet value at that index |
| PricePanel.GenerateFallbacks | src/components/PricePanel.jsx:99-105 | the loop computes exactly each holding's fallback series |
| PricePanel.HoldingsValueAt | src/components/PricePanel.jsx:97-108 | the inner loop's `total` is the wallet value at index `i` |
| PricePanel.BuildWalletSeries | src/components/PricePanel.jsx:84-112 | the method computes exactly the specified wallet series |
| PricePanel.NoWalletNoSeries | src/components/PricePanel.jsx:88 | no wallet gives an empty chart |
| PricePanel.EmptyWalletIsZero | src/components/PricePanel.jsx:96-111 | a wallet with no holdings is worth 0 at every point of the timeline |
| PricePanel.ValidBaseGivesTimeline | src/components/PricePanel.jsx:91-93 | with a valid BTC series the chart has its length and its timestamps |
| PricePanel.InvalidBaseGivesFallbackTimeline | src/components/PricePanel.jsx:91-94 | otherwise the chart has the configured length and ends at `now` |
| PricePanel.ValueFromSuppliedSeries | src/components/PricePanel.jsx:100-107 | when every held symbol has a supplied value at `i`, the wallet value is the quantity-weighted sum of those values, whatever the fallbacks |
| PricePanel.PxPerPoint | src/components/PricePanel.jsx:114-119 | pixels per point are positive |
| PricePanel.PxPerPointShrinks | src/components/PricePanel.jsx:114-119 | 1D > 1W > 1M > 1Y, and any other range is treated as 1Y |
| MockLivePrices.HistorySeed | src/hooks/useMockLivePrices.js:70-73 | `(codes(sym) + codes(range)) \| 0`: a signed 32-bit value congruent to the sum |
| MockLivePrices.GenerateSeriesForRange | src/hooks/useMockLivePrices.js:34-58 | the method computes exactly the specified series: empty for an unknown range, else the walk |
| MockLivePrices.SeriesForRangeShape | src/hooks/useMockLivePrices.js:34-58 | empty for an unknown range; else `points` points, oldest first, strictly increasing times ending at `now`, every value in band |
| MockLivePrices.BasePrice | src/hooks/useMockLivePrices.js:68 | the supplied base price, else 1 for USDC and 100 for any other symbol |
| MockLivePrices.RangeHistory | src/hooks/useMockLivePrices.js:66-76 | one range's table has exactly the requested symbols |
| MockLivePrices.HistoryOver | src/hooks/useMockLivePrices.js:65-77 | the table has exactly the given ranges |
| MockLivePrices.ObjectKeys | src/hooks/useMockLivePrices.js:61 | `Object.keys(basePrices \|\| {})` lists exactly the keys of the base prices |
| MockLivePrices.BuildMockHistorySeries | src/hooks/useMockLivePrices.js:61-80 | the symbols are the given ones, or else the base prices' keys, and the result is the specified history over them |
| MockLivePrices.BuildHistory | src/hooks/useMockLivePrices.js:65-77 | the outer loop fills exactly the specified table for the given ranges |
| MockLivePrices.RangeHistoryStep | src/hooks/useMockLivePrices.js:67-76 | one inner iteration sets one symbol's entry |
| MockLivePrices.BuildRange | src/hooks/useMockLivePrices.js:67-76 | the inner loop fills exactly the specified range table |
| MockLivePrices.RangeHistoryEntries | src/hooks/useMockLivePrices.js:68-75 | each symbol's entry is its walk from its base price with its own seed |
| MockLivePrices.HistoryOverEntries | src/hooks/useMockLivePrices.js:65-77 | each range's entry is that range's table |
| MockLivePrices.HistoryKeys | src/hooks/useMockLivePrices.js:62-77 | exactly the keys 1D, 1W, 1M and 1Y, each holding exactly the requested symbols |
| MockLivePrices.HistoryEntry | src/hooks/useMockLivePrices.js:68-75 | `series[r][sym]` is the walk of `sym` over `r` from its base price with seed `codes(sym) + codes(r)` |
| MockLivePrices.SeedsDiffer | src/hooks/useMockLivePrices.js:70-73 | the two copies seed BTC/1D differently: 18076 in the price panel and 334 here |
| MockLivePrices.UnknownRangeDiffers | src/hooks/useMockLivePrices.js:35-36 | for an unknown range the history is empty while the price panel's fallback has 288 points |
| MockLivePrices.TickVol | src/hooks/useMockLivePrices.js:97-98 | the tick volatility is positive and at most 0.012 |
| MockLivePrices.TickPrices | src/hooks/useMockLivePrices.js:93-106 | the copy-and-overwrite loop yields exactly the specified next map |
| MockLivePrices.TickProperties | src/hooks/useMockLivePrices.js:94-103 | the next map has the same symbols; each price is in band; before the clamp it moved by a factor in `[1 - vol/2, 1 + vol/2)`; an in-band move is kept |
| MockLivePrices.LivePriceFeed.constructor | src/hooks/useMockLivePrices.js:83-87 | starts connecting, with `prices` and `prevRef` the initial map, and no interval |
| MockLivePrices.LivePriceFeed.Mount | src/hooks/useMockLivePrices.js:89-92 | connected and the interval registered; prices untouched |
| MockLivePrices.LivePriceFeed.Tick | src/hooks/useMockLivePrices.js:92-110 | while the interval runs a tick replaces the prices by the next map and records the time; after teardown it changes nothing |
| MockLivePrices.LivePriceFeed.Unmount | src/hooks/useMockLivePrices.js:112-115 | disconnected and the interval cleared; prices untouched |
| MockLivePrices.LivePriceFeed.Render | src/hooks/useMockLivePrices.js:118-122 | a render reports `prevRef` as it was, then `prevRef` becomes the rendered prices |
| MockLivePrices.OneRenderLag | src/hooks/useMockLivePrices.js:82-123 | after mount, render, tick and render, the second render shows the ticked prices with the untouched pre-tick map as `prevPrices`, over the same symbols |
| MockSeries.Prices | src/lib/mockSeries.js:7-12 | `n` draws give `n` prices |
| MockSeries.Series | src/lib/mockSeries.js:3-15 | `points` points |
| MockSeries.PricesPrefix | src/lib/mockSeries.js:7-12 | fewer steps give a prefix of the prices |
| MockSeries.MakeSeries | src/lib/mockSeries.js:3-15 | the loop yields exactly the specified series |
| MockSeries.PricesFloor | src/lib/mockSeries.js:10 | every value is at least 0.01, USDC included |
| MockSeries.StepFactor | src/lib/mockSeries.js:8-10 | a step multiplies by a factor in `[0.995, 1.005)` unless it hits the 0.01 floor |
| MockSeries.SeriesSteps | src/lib/mockSeries.js:7-12 | each value is one step from the previous one, the first from the base price |
| MockSeries.SeriesTimes | src/lib/mockSeries.js:11 | neighbouring timestamps differ by the clock's advance plus 60000 ms; the last is one minute before its clock read |
| MockSeries.MockSeriesKeys | src/lib/mockSeries.js:17-42 | exactly the ranges 1D, 1W, 1M, 1Y, each with exactly BTC, ETH, SOL and USDC |
| MockSeries.MockSeriesEntry | src/lib/mockSeries.js:17-42 | each entry has its range's length (96, 336, 720 or 365) and values of at least 0.01 |
| MockSeries.SpanBound | src/lib/mockSeries.js:11 | with clock reads less than a day apart, a series spans less than a day plus `(points-1)` minutes |
| MockSeries.MockSeriesNeverValid | src/lib/mockSeries.js:17-42 | no `MOCK_SERIES` entry passes `isValidRangeSeries` for its own range |
| MockData.InitialPricesCoverSymbols | src/data/mockData.js:86-91 | exactly the listed symbols have an opening price, each positive |
| MockData.FlattenFixture | src/data/mockData.js:3-21 | the fixture's holdings, wallet by wallet |
| MockData.SymbolOrderFixture | src/data/mockData.js:3-21 | first-seen symbol order is BTC, ETH, USDC, SOL |
| MockData.EthFixture | src/data/mockData.js:9-18 | ETH aggregates to quantity 8.0 at average cost 2947.5 |
| MockData.HoldingsFixture | src/data/mockData.js:3-21 | the aggregated holdings of the fixture |
| MockData.SingleHolder | src/data/mockData.js:3-21 | a symbol held once keeps its quantity and cost |
| MockData.PortfolioFixture | src/data/mockData.js:3-91 | at the opening prices: value 63130, cost 52595, profit 10535, its percentage of cost, four allocation entries |
| MockTrades.Symbols | src/data/mockData.js:38 | each generator has at least four symbols |
| MockTrades.Bases | src/data/mockData.js:41-46 | one positive base price per symbol |
| MockTrades.PickIndex | src/data/mockData.js:49-50 | `floor(draw*n)` is a valid index |
| MockTrades.Pick | src/data/mockData.js:49 | the picked symbol is one of the list |
| MockTrades.Quantity | src/data/mockData.js:58-65 | every quantity is positive |
| MockTrades.Unsorted | src/data/mockData.js:48-78 | `Array.from({length: count})` gives `count` trades |
| MockTrades.TakeDraws | src/data/mockData.js:48-78 | n calls of the generator return the next n draws of its sequence |
| MockTrades.NextTrade | src/data/mockData.js:48-78 | one trade consumes seven draws and is the specified trade for its index |
| MockTrades.CreateTrades | src/data/mockData.js:48-78 | the loop yields the specified trades over the seed's draw sequence |
| MockTrades.UnsortedSnoc | src/data/mockData.js:48-78 | one more index appends that index's trade |
| MockTrades.GenerateMockTrades | src/data/mockData.js:33-82 | the method yields exactly the specified trades sorted newest first |
| MockTradeFacts.IdIndexOf | src/data/mockData.js:70 | the id `t_<idx>_<hex>` gives back `idx` |
| MockTradeFacts.TsWithin | src/data/mockData.js:52 | a timestamp lies in `[start, now]`, and before `now` when the window is non-empty and starts at or after the epoch |
| MockTradeFacts.PriceBand | src/data/mockData.js:55-56 | before the floor the price is the base plus noise within half the noise span |
| MockTradeFacts.FeeRange | src/data/mockData.js:67 | the fee is from 0.15% to under 0.35% of price times quantity |
| MockTradeFacts.SideOf | src/data/mockData.js:50 | every side is BUY or SELL |
| MockTradeFacts.TsOf | src/data/mockData.js:36-52 | every timestamp lies in the window |
| MockTradeFacts.PriceOf | src/data/mockData.js:54-56 | every price is at least 0.01 and within the band of its symbol |
| MockTradeFacts.FeeOf | src/data/mockData.js:67 | every fee lies in its range |
| MockTradeFacts.IdOf | src/data/mockData.js:70 | every id carries its index |
| MockTradeFacts.MakeTradeFacts | src/data/mockData.js:48-78 | every trade is well formed and its id carries its index |
| MockTradeFacts.UnsortedFacts | src/data/mockData.js:48-78 | all trades are well formed, with pairwise distinct ids |
| MockTradeFacts.DistinctIdsPermuted | src/data/mockData.js:80 | reordering keeps ids distinct |
| MockTradeFacts.StartBefore | src/data/mockData.js:36 | the window starts no later than `now` |
| MockTradeFacts.OrderedFacts | src/data/mockData.js:80 | after the sort: newest first, distinct ids, all well formed |
| MockTradeFacts.GeneratedFacts | src/data/mockData.js:33-82 | the generated trades are newest first, have distinct ids, and are well formed within `[now - days, now]` |
| TradeHistory.Oldest | src/components/TradeHistoryTable.jsx:79 | the oldest timestamp is that of some trade and no later than any |
| TradeHistory.OlderThan | src/components/TradeHistoryTable.jsx:86-87 | keeps exactly the pad trades older than the cut |
| TradeHistory.Unseen | src/components/TradeHistoryTable.jsx:89-90 | keeps exactly the trades whose id was not seen |
| TradeHistory.PaddedOrder | src/components/TradeHistoryTable.jsx:89-93 | the merge holds every supplied trade plus the added ones, newest first |
| TradeHistory.PaddedMembers | src/components/TradeHistoryTable.jsx:86-93 | a trade is in the merge exactly when supplied, or generated, older than the oldest supplied and with an unseen id |
| TradeHistory.AddedOlder | src/components/TradeHistoryTable.jsx:86-87 | every added trade is older than every supplied one |
| TradeHistory.PaddedDistinct | src/components/TradeHistoryTable.jsx:89-90 | distinct supplied ids and distinct pad ids give distinct merged ids |
| TradeHistory.FallbackFacts | src/components/TradeHistoryTable.jsx:74-76 | missing or empty trades give the seed-42 set of 900, newest first, distinct ids, well formed |
| TradeHistory.LongHistoryUnchanged | src/components/TradeHistoryTable.jsx:79-83 | supplied trades reaching back two years are returned unchanged |
| TradeHistory.SeededPadFacts | src/components/TradeHistoryTable.jsx:86 | the seed-1337 pad has distinct ids and well-formed trades |
| TradeHistory.ShortHistoryPadded | src/components/TradeHistoryTable.jsx:78-94 | supplied trades all newer than two years ago are padded by the merge |
| TradeHistory.PaddedAdds | src/components/TradeHistoryTable.jsx:86-93 | every trade the merge adds comes from the pad, has an unseen id, is well formed and is older than all supplied trades |
| TradeHistory.KeepWhere | src/components/TradeHistoryTable.jsx:105-114 | the filter never lengthens the list |
| TradeHistory.KeepWhereMembers | src/components/TradeHistoryTable.jsx:105-114 | a trade is kept exactly when it is in the input and matches |
| TradeHistory.KeepWhereSubsequence | src/components/TradeHistoryTable.jsx:105 | the filtered list is an order-preserving subsequence |
| TradeHistory.KeepWhereAppend | src/components/TradeHistoryTable.jsx:105 | filtering distributes over concatenation |
| TradeHistory.KeepWhereIdempotent | src/components/TradeHistoryTable.jsx:105 | filtering twice is filtering once |
| TradeHistory.FilteredFacts | src/components/TradeHistoryTable.jsx:103-115 | a subsequence keeping exactly the trades of the side whose lower-cased symbol, side or id contains the trimmed lower-cased query, or every trade for a blank query |
| TradeHistory.BlankQueryKeepsAll | src/components/TradeHistoryTable.jsx:104-112 | a blank query with side ALL keeps every trade |
| TradeHistory.EmptyQueryKeepsAll | src/components/TradeHistoryTable.jsx:106-112 | with an empty query and side ALL the filter returns the whole list |
| TradeHistory.SortedNumbers | src/components/TradeHistoryTable.jsx:124-125 | time and number columns are ordered numerically in the chosen direction |
| TradeHistory.SortedTexts | src/components/TradeHistoryTable.jsx:126 | symbol and side are ordered as strings in the chosen direction |
| TradeHistory.SortedFacts | src/components/TradeHistoryTable.jsx:117-129 | the sorted copy is a permutation, ordered by the column in the chosen direction, and stable on equal keys |
| TradeHistory.TotalPages | src/components/TradeHistoryTable.jsx:131 | `max(1, ceil(n/5))`: at least one page, the pages hold all rows, and no page is wholly empty |
| TradeHistory.CurrentPage | src/components/TradeHistoryTable.jsx:132 | the page clamped into `[1, totalPages]` |
| TradeHistory.CurrentPageIsClamp | src/components/TradeHistoryTable.jsx:132 | the current page is `clamp(page, 1, totalPages)` |
| TradeHistory.PageRows | src/components/TradeHistoryTable.jsx:133 | the slice starting at `5*(currentPage-1)`, at most five rows, non-empty when there are rows |
| TradeHistory.PagesPrefix | src/components/TradeHistoryTable.jsx:133 | the first k pages are the first `5k` rows |
| TradeHistory.PagesCover | src/components/TradeHistoryTable.jsx:131-133 | all pages together are exactly the rows |
| TradeHistory.Flip | src/components/TradeHistoryTable.jsx:138 | flipping changes the direction |
| TradeHistory.ToggleFacts | src/components/TradeHistoryTable.jsx:137-143 | the clicked column becomes the sort column; on the same column the direction flips and a second click restores it; a new column starts descending |
| TradeHistory.SortIndicator | src/components/TradeHistoryTable.jsx:145 | the arrow is shown exactly on the sort column |
| TradeHistory.IndicatorAfterToggle | src/components/TradeHistoryTable.jsx:137-145 | after a click only the clicked column shows an arrow, pointing the new direction |
| TradeHistory.PrevPageOf | src/components/TradeHistoryTable.jsx:219 | the Prev button never goes below page 1 |
| TradeHistory.NextPageOf | src/components/TradeHistoryTable.jsx:229 | the Next button never goes past the last page |
| TradeHistory.PageButtons | src/components/TradeHistoryTable.jsx:219-230 | from an in-range page, Next and Prev move one page unless at the end, and undo each other |
| TradeHistory.SortedSameMembers | src/components/TradeHistoryTable.jsx:117-129 | the sorted copy holds the same trades |
| TradeHistory.PageRowsWithin | src/components/TradeHistoryTable.jsx:133 | a page holds only rows of the list |
| TradeHistory.ShownFacts | src/components/TradeHistoryTable.jsx:103-133 | every shown row is a matching trade, and some row is shown whenever some trade matches |
| TradeHistory.TableState.constructor | src/components/TradeHistoryTable.jsx:96-100 | empty query, side ALL, sorted by time descending, page 1 |
| TradeHistory.TableState.SetQuery | src/components/TradeHistoryTable.jsx:135 | a new query resets the page to 1 and keeps the rest |
| TradeHistory.TableState.SetSide | src/components/TradeHistoryTable.jsx:135 | a new side resets the page to 1 and keeps the rest |
| TradeHistory.TableState.ToggleSort | src/components/TradeHistoryTable.jsx:137-143 | the sort column and direction follow the toggle; query, side and page are kept |
| TradeHistory.TableState.PrevPage | src/components/TradeHistoryTable.jsx:219 | the page becomes `max(1, page-1)` |
| TradeHistory.TableState.NextPage | src/components/TradeHistoryTable.jsx:229 | the page becomes `min(totalPages, page+1)` |
| StableSort.KeyLtTrans | src/components/TradeHistoryTable.jsx:119-127 | the key order is transitive |
| StableSort.KeyLtTotal | src/components/TradeHistoryTable.jsx:119-127 | any two different keys are ordered one way |
| StableSort.AheadTrans | src/components/TradeHistoryTable.jsx:119-127 | the order in either direction is transitive |
| StableSort.Insert | src/lib/metrics.js:40 | inserting adds exactly one element |
| StableSort.SortBy | src/lib/metrics.js:40 | the sort is a permutation |
| StableSort.InsertSorted | src/lib/metrics.js:40 | inserting into a sorted list keeps it sorted |
| StableSort.SortBySorted | src/lib/metrics.js:40 | the sorted list is ordered in the chosen direction |
| StableSort.WithKey | src/lib/metrics.js:40 | the elements with one key come from the list |
| StableSort.WithKeyAppend | src/lib/metrics.js:40 | picking one key distributes over concatenation |
| StableSort.InsertWithKey | src/lib/metrics.js:40 | an inserted element goes after every earlier element with its key |
| StableSort.SortByStable | src/lib/metrics.js:40 | elements with equal keys keep their input order |
| StableSort.SortBySum | src/lib/metrics.js:40 | sorting keeps any sum over the elements |
| Metrics.SymbolsDistinctCover | src/lib/metrics.js:2-13 | the grouped symbols are distinct and include every held symbol |
| Metrics.AvgCost | src/lib/metrics.js:16 | for a positive quantity, average cost times quantity is the cost; otherwise 0 |
| Metrics.AggregatesOf | src/lib/metrics.js:13-17 | one aggregated holding per symbol, in the symbols' order |
| Metrics.AccsSnoc | src/lib/metrics.js:6-9 | one more holding updates its symbol's accumulator and appends the symbol if new |
| Metrics.AccsEntries | src/lib/metrics.js:4-11 | the map has exactly the seen symbols, each with its summed quantity and cost |
| Metrics.AccsKey | src/lib/metrics.js:9 | a symbol is a key exactly when it has been seen |
| Metrics.Unheld | src/lib/metrics.js:6 | a symbol never held sums to 0 |
| Metrics.AddHoldings | src/lib/metrics.js:5-10 | the inner loop leaves the key order and the accumulators of everything seen so far |
| Metrics.ComputeHoldings | src/lib/metrics.js:1-18 | the loops compute exactly the specified aggregated holdings |
| Metrics.FirstIndex | src/lib/metrics.js:2-9 | the first position holding the symbol, or the length when there is none |
| Metrics.ListedIffHeld | src/lib/metrics.js:2-13 | a symbol is listed exactly when some holding has it |
| Metrics.SymbolsInFirstSeenOrder | src/lib/metrics.js:2-13 | the symbols come in the order of their first appearance |
| Metrics.HoldingsOfSymbols | src/lib/metrics.js:1-18 | one entry for exactly each held symbol, in first-seen order |
| Metrics.HoldingsOfAmounts | src/lib/metrics.js:6-16 | each entry's quantity is the symbol's summed quantity, and its average cost the quantity-weighted cost when the quantity is positive, else 0 |
| Metrics.QtySumOverWallets | src/lib/metrics.js:4-7 | a symbol's aggregated quantity is the sum of its per-wallet quantities |
| Metrics.QtySumAppend | src/lib/metrics.js:7 | quantity sums add up over concatenation |
| Metrics.PnlPct | src/lib/metrics.js:33 | for a positive cost, the percentage times the cost is the profit; otherwise 0 |
| Metrics.AllocOf | src/lib/metrics.js:36-38 | the entry's value is quantity times price or 0; its share times the total is its value for a positive total, else 0 |
| Metrics.Unsorted | src/lib/metrics.js:35-39 | one allocation entry per holding, in order |
| Metrics.Totals | src/lib/metrics.js:23-30 | the loop accumulates the specified total value and total cost |
| Metrics.ComputePortfolio | src/lib/metrics.js:20-43 | the method computes exactly the specified portfolio |
| Metrics.GroupedSnoc | src/lib/metrics.js:6-8 | one more holding adds to its own symbol's group only |
| Metrics.SumOverSnoc | src/lib/metrics.js:6-8 | over distinct symbols, one more holding adds its contribution once if listed |
| Metrics.NewSymbolGroup | src/lib/metrics.js:6-9 | a new symbol's group starts with its first holding |
| Metrics.Regroup | src/lib/metrics.js:4-13 | summing group by group equals summing holding by holding |
| Metrics.QtyTimesPrice | src/lib/metrics.js:26-28 | summed quantity times price is the sum of each holding's value |
| Metrics.TotalValueGrouped | src/lib/metrics.js:26-28 | the total value over aggregated holdings is the sum over the groups |
| Metrics.TotalValueIsRawValue | src/lib/metrics.js:26-28 | total value is quantity times price over every raw holding, an unpriced symbol counting 0 |
| Metrics.TotalCostGrouped | src/lib/metrics.js:8-29 | with every net quantity positive, total cost over aggregates is the sum over the groups |
| Metrics.TotalCostIsRawCost | src/lib/metrics.js:8-29 | with every net quantity positive, total cost is quantity times average cost over every raw holding |
| Metrics.ClosedOutAggregates | src/lib/metrics.js:13-17 | a symbol bought and sold to zero aggregates to quantity 0 at average cost 0 |
| Metrics.ZeroNetQuantityDropsCost | src/lib/metrics.js:16-29 | that symbol contributes nothing to total cost though its raw cost is 10 |
| Metrics.PnlFacts | src/lib/metrics.js:32-33 | profit is value minus cost, positive exactly when value exceeds cost; the percentage has the profit's sign for a positive cost and is 0 otherwise |
| Metrics.SharesSum | src/lib/metrics.js:38 | for a positive total, the shares times the total add up to the values |
| Metrics.UnsortedValueSum | src/lib/metrics.js:35-39 | the allocation values add up to the total value |
| Metrics.AllocationOrder | src/lib/metrics.js:35-40 | the allocation is a permutation of the entries, descending by value, and stable for equal values |
| Metrics.SharesPermuted | src/lib/metrics.js:40 | sorting keeps every entry's share |
| Metrics.UnsortedShares | src/lib/metrics.js:38 | every unsorted entry carries its share |
| Metrics.AllocationShares | src/lib/metrics.js:35-40 | every sorted entry carries its share |
| Metrics.SharesOfWhole | src/lib/metrics.js:38 | shares of values summing to the total sum to 1 |
| Metrics.SharesSumToOne | src/lib/metrics.js:35-40 | for a positive total value the allocation shares sum to 1 |
| Metrics.NoHoldingsNoPortfolio | src/lib/metrics.js:20-43 | wallets with no holdings give zero totals, zero percentage and empty lists |
| Metrics.FlattenEmpty | src/lib/metrics.js:4-5 | wallets with no holdings contribute no holding |
| HoldingsTable.PrevOr | src/components/HoldingsTable.jsx:99 | `prevPrices?.[symbol] ?? fallback`: the previous price when there is one, else the fallback |
| HoldingsTable.Rows | src/components/HoldingsTable.jsx:97-106 | one row per holding, in order |
| HoldingsTable.RowFacts | src/components/HoldingsTable.jsx:97-105 | the row keeps the holding's fields, its value is quantity times price (0 unpriced), its profit plus cost is its value, its percentage times a positive cost is the profit (else 0), its change times a positive previous price is the price difference (else 0) |
| HoldingsTable.PriceToneFacts | src/components/HoldingsTable.jsx:53-104 | with a positive previous price the badge says whether the price rose or fell; otherwise it is neutral |
| HoldingsTable.NoPreviousPricesNeutral | src/components/HoldingsTable.jsx:99-104 | without previous prices every badge is neutral |
| HoldingsTable.PnlToneFacts | src/components/HoldingsTable.jsx:54-102 | for a positive quantity the profit colour says whether the price is above, below or at the average cost |
| HoldingsTable.RowsAddUp | src/components/HoldingsTable.jsx:97-106 | the rows' values add up to the portfolio total value of the same holdings |
| WalletBalances.ValueNowIsRaw | src/components/WalletBalances.jsx:57-60 | a card's value is quantity times price over its holdings, an unpriced symbol counting 0 |
| WalletBalances.CardsAreRaw | src/components/WalletBalances.jsx:56-60 | the cards together value every holding of every wallet |
| WalletBalances.CardsAddUp | src/components/WalletBalances.jsx:56-60 | the cards add up to the portfolio's total value |
| WalletBalances.NoPreviousPricesNeutral | src/components/WalletBalances.jsx:62-67 | without previous prices the previous value is the value, and every pill is neutral |
| WalletBalances.HoldingToneFacts | src/components/WalletBalances.jsx:84-86 | a pill compares the price with the same previous price the card's previous value uses, neutral exactly when equal |
| WalletBalances.NoFallNoLoss | src/components/WalletBalances.jsx:57-67 | with no short holdings and no falling pill, the card's value did not fall |

## Left out

- Rounding: `toFixed` and `round2` are not modelled. Series values, trade prices, quantities and fees are the unrounded running values.
- `fmtUsd`, `fmtPct`, `fmtDate`, `toLocaleString` and `toISOString` are host-library text conversions and are not modelled.
- Floating point: prices are reals. The allocation shares sum to exactly 1 only over reals.
- PricePanel.FallbackConfig and PricePanel.IsValidRangeSeries: a range name that is an `Object.prototype` property (`"toString"`, `"constructor"`, `"__proto__"`) is treated as unknown. In the source `RANGE_CFG[range]` is then truthy with no `points`, so `isValidRangeSeries` returns false and `generateFallbackSeries` returns `[]`. The app only passes the four range buttons' names.
- PriceWalk.CodeSum: adds Unicode code points. The source adds UTF-16 code units, which differ for characters outside the Basic Multilingual Plane (a surrogate pair adds two units), so `PricePanel.SeedFrom` and `MockLivePrices.HistorySeed` match the source only on strings within that plane. The app's symbols and ranges are ASCII.
- PricePanel.BuildWalletSeries: supplied series entries are objects. A `null` entry in a valid base series, which `isValidRangeSeries` tolerates and on which `pt.t` throws, is not modelled.
- Mulberry.Generator: the state is kept modulo 2^32. The source's closure variable is a double that grows by 0x6d2b79f5 per call and is never reduced; it agrees with the model while it stays below 2^53, about 4.9 million calls. The app makes at most 900 * 7 = 6300 calls per generator.
- Text.ToLower: only ASCII upper-case letters are mapped. The engine's full Unicode case mapping is not modelled.
- TradeHistory.KeyOf: `localeCompare` is modelled as code-point order, which is one total order. Locale collation is not modelled.
- TradeHistory.Oldest: trade timestamps are always finite integers. The branch for an unparsable or missing timestamp (a non-finite `oldest`) is not modelled.
- TradeHistory.EffectiveTrades: one `now` serves the window and both generator calls. The source reads the clock separately in each.
- MockLivePrices.BuildMockHistorySeries: one `now` serves every generated series. The source reads the clock in each `generateSeriesForRange` call.
- MockLivePrices.ObjectKeys: the keys come back in an arbitrary order. The engine's insertion order of object keys is not modelled.
- PricePanel.BuildWalletSeries: each holding's fallback series is generated once before the timeline is walked. The source regenerates it at every point, with identical values.
- Metrics.TotalCostIsRawCost: proved only when every net quantity is positive. `Metrics.ZeroNetQuantityDropsCost` shows why it fails otherwise.
- MockData.PortfolioFixture: the fixture's allocation is shown to have four entries. Its order is not computed.
- MockSeries.MockSeriesNeverValid: it assumes the clock reads of one `makeSeries` call fall less than a day apart.
- `MOCK_TRADES` is `MockTrades.Generated(DataFile, 730, 900, 42, now)`. It is not evaluated for a concrete `now`, so no concrete trade is listed.
- TradeHistory.PageButtons: proved for a stored page within `[1, totalPages]`. A page that went stale when the list shrank is still clamped by `TradeHistory.CurrentPage`.
- TradeHistory.TableState: React's ordering of the render before the page-reset effect is not modelled. The query and side setters reset the page directly.
- MockLivePrices.LivePriceFeed: React scheduling, batching and the 1200 ms timer are not modelled. Mount, tick, teardown and render are explicit method calls in any order.
- PricePanel.jsx lines 121-414 are not part of this model: zoom, scroll, pan, resize observation, and label formatting.
- `useTweenNumber`, `useFlashClass` and the markup of the components are presentation and are not modelled.
- `src/hooks/useLivePricesCoingecko.js` (network polling) is not part of this model.
- `vite.config.js`, `src/components/Sparkline.jsx` and `src/App.jsx` are not part of this model.
