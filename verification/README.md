# Broker analytics core in Dafny

A model of the deterministic analytics core of the *broker* stock-analysis
dashboard. It covers:

- **Indicators** (`indicators.js`): SMA, EMA, standard deviation, Bollinger
  bands, RSI, MACD, the Stochastic oscillator, the Ichimoku cloud, ADX with
  its directional indicators, and Fibonacci retracement levels.
- **Backtester** (`backtest.js`):
  - the fixed horizon lists (3/5/9/14 and 65/130/195/260 bars);
  - the eight supported strategies and their entry/exit signals;
  - `findConditions` and `findCrossovers`;
  - fixed-horizon trades and signal-exit trades;
  - `calculateStats`;
  - `run`, which puts all of these into one report.
- **Market screener** (`market_screener.js`):
  - `getAllSymbols` and `getSector` over a sector → symbols list;
  - the ranking part of `generateRankings`. Each candidate is one
    (symbol, strategy, horizon) cell with at least 5 trades (short term)
    or 3 trades (long term). Candidates are stable-sorted by win rate,
    descending. Only the first candidate per symbol is kept, then the
    first ten;
  - `findBestMonth`.
- **Dashboard** (`app.js`): `getTopStrategy`. It picks the strategy and
  horizon with the best win rate among cells with at least three trades.

Each module mirrors one concern of the program:

| module | file | concern |
|---|---|---|
| `JsValues` | js_values.dfy | JavaScript `null`, coercion to 0, `NaN`, sums |
| `MarketData` | market_data.dfy | price bars, window highs and lows |
| `MovingAverages` | moving_averages.dfy | SMA and EMA |
| `Volatility` | volatility.dfy | rolling standard deviation and Bollinger bands |
| `Oscillators` | oscillators.dfy | RSI and Stochastic |
| `Macd` | macd.dfy | MACD |
| `Ichimoku` | ichimoku.dfy | Ichimoku cloud |
| `DirectionalMovement` | directional.dfy | true range, directional movement, DI and DX |
| `AverageDirectionalIndex` | adx.dfy | the ADX loop |
| `Fibonacci` | fibonacci.dfy | retracement levels |
| `Signals` | signals.dfy | `findConditions`, `findCrossovers` |
| `Trades` | trades.dfy | trade evaluation |
| `Statistics` | stats.dfy | `calculateStats` |
| `Backtest` | backtest.dfy | strategies, signals, `run` |
| `Lists` | lists.dfy | seen-set dedup, stable sort, best-so-far scan |
| `MarketScreener` | screener.dfy | symbols, sectors, rankings, best month |
| `TopStrategy` | top_strategy.dfy | `getTopStrategy` |

How JavaScript values are represented:

- A series entry is `Option<real>`. `None` is `null`.
- The arithmetic and comparisons that JavaScript applies to `null` read it
  as 0 (`Num`).
- Where a 0/0 can really happen (ADX), values are `Number = Fin(real) | NaN`,
  and `NaN` propagates through later steps.
- `Math.sqrt` is a function parameter `root`. The results that need it
  assume `IsSqrt(root)`: the root is non-negative and squares back to its
  argument on non-negative reals.

Where the code does something other than its stated intent, the model
follows the code:

- **EMA length.** `calculateEMA` first pushes one `null` per leading
  `null` input. It then pushes `period` more `null`s and overwrites slot
  `period-1`. So on an input with leading `null`s the result is longer
  than the input. The seed is always read from `data[0..period-1]`.
- **MACD signal line.** The MACD line has `slow-1` leading `null`s. Its
  EMA is therefore `slow-1` entries longer than the bar series. Every
  index is shifted. The histogram still reads `signal[i]` at bar `i`.
- **Stochastic %K.** %K and %D are SMAs over arrays that still hold the
  raw line's warm-up `null`s, and the SMA reads those as 0. So smoothed
  %K is 0, not `null`, between index `smoothK-1` and `period-2`.
- **Ichimoku cloud bottom.** Between bars 52 and 76, span A is defined
  but span B is `null`. `Math.min` reads that `null` as 0, so the cloud
  bottom is 0 and the Kumo strategy cannot exit before bar 77.
- **ADX.**
  - The first DX, at bar `period`, has no zero-sum guard. It is `NaN`
    when both DIs are 0 (0/0).
  - A `NaN` among the first `period` DX values makes every later ADX
    `NaN`.
  - The first smoothed true range sums `tr[0..period-1]` and leaves out
    `tr[period]`.
- **Strategy key `""`.** `getTopStrategy` returns `null` when the best
  entry's strategy key is the empty string, because the final test is on
  truthiness.
- **Sector names.** `getSector` returns `"Khác"` for an unlisted symbol.
  `"Khác"` is also the name of a real sector in the list.

## Model

| member | source | states |
|---|---|---|
| MovingAverages.TrailingSumIsWindowSum | indicators.js:17-20 | the backward accumulation of the inner loop is the sum of the window ending at i |
| MovingAverages.Sma | indicators.js:10-24 | one entry per input entry; an entry is `null` exactly when i < period-1 |
| MovingAverages.SmaIsTrailingMean | indicators.js:17-21 | every defined SMA entry is the mean of the `period` trailing inputs, `null` read as 0 |
| MovingAverages.SmaBounds | indicators.js:10-24 | if every input reads as a number in [lo, hi], every defined SMA entry lies in [lo, hi] |
| MovingAverages.WindowMeanBounds | indicators.js:17-21 | the mean of a window of inputs in [lo, hi] lies in [lo, hi] |
| MovingAverages.Wilder | indicators.js:131-132 | Wilder smoothing of non-negative values is non-negative |
| MovingAverages.LeadingNulls | indicators.js:33-36 | the first loop skips exactly the leading `null`s: all before are `null`, the next is a number |
| MovingAverages.Ema | indicators.js:27-57 | on an input shorter than the period every entry is `null`; otherwise the output is longer than the input by the number of leading `null`s |
| MovingAverages.EmaStepsNulls | indicators.js:33-55 | in the padded result array, the skipped and padding slots are `null` and all other slots are numbers, except the seed slot period-1 |
| MovingAverages.EmaStepsPrefix | indicators.js:50-55 | the main loop only appends to the results array |
| MovingAverages.EmaStep | indicators.js:50-54 | without leading `null`s, EMA[j] = (x[j] - EMA[j-1]) * k + EMA[j-1] |
| MovingAverages.EmaOnNullFreeInput | indicators.js:27-57 | on a `null`-free input: aligned with the input, `null` before period-1, seeded with the mean of the first `period` entries, then the EMA recurrence |
| Volatility.StdDev | indicators.js:78-95 | one entry per bar; `null` exactly when i < period-1 |
| Volatility.StdDevIsRootOfVariance | indicators.js:87-92 | each defined entry is the root of the population variance of the window about its SMA |
| Volatility.StdDevEntryNonNegative | indicators.js:89-92 | a defined entry is a non-negative number when `root` is a square root |
| Volatility.StdDevNonNegative | indicators.js:78-95 | every defined entry is non-negative |
| Volatility.Bollinger | indicators.js:60-75 | the middle band is the SMA of the closes; the upper and lower bands are `null` exactly when the SMA or the deviation is |
| Volatility.BollingerOrdered | indicators.js:64-73 | for a non-negative multiplier, lower <= middle <= upper on every defined bar |
| Oscillators.Gain | indicators.js:103-110 | the gain of a bar is non-negative (the padded first entry is 0) |
| Oscillators.Loss | indicators.js:103-111 | the loss of a bar is non-negative (the padded first entry is 0) |
| Oscillators.RsiAverages | indicators.js:113-133 | the running average gain and loss stay non-negative |
| Oscillators.Rsi | indicators.js:98-143 | one entry per bar; `null` exactly during the first `period` bars |
| Oscillators.RsiValueRange | indicators.js:135-140 | RSI is 100·g/(g+l) when the loss is positive, 100 exactly when the loss is 0, and always in [0, 100] |
| Oscillators.RsiInRange | indicators.js:98-143 | every defined RSI entry lies in [0, 100] |
| Oscillators.NonFallingLossIsZero | indicators.js:121-132 | on closes that never fall, the average loss stays 0 |
| Oscillators.RsiOfNonFallingSeries | indicators.js:135-136 | on closes that never fall, every defined RSI is 100 |
| Oscillators.FallingSeed | indicators.js:121-128 | on strictly falling closes the first averages are a zero gain and a positive loss |
| Oscillators.FallingAverages | indicators.js:121-132 | on strictly falling closes the average gain stays 0 and the average loss positive |
| Oscillators.RsiOfFallingSeries | indicators.js:137-139 | on strictly falling closes every defined RSI is 0 |
| Oscillators.RawK | indicators.js:180-197 | one raw %K entry per bar; `null` exactly when i < period-1 |
| Oscillators.KValueRange | indicators.js:191-196 | a close within [lowest, highest] gives a %K in [0, 100] |
| Oscillators.RawKFlatWindow | indicators.js:191-192 | where the window's highest high equals its lowest low, raw %K is exactly 50 |
| Oscillators.RawKEntryRange | indicators.js:186-196 | on valid bars each raw %K lies in [0, 100] |
| Oscillators.RawKRange | indicators.js:180-197 | on valid bars every defined raw %K lies in [0, 100] |
| Oscillators.Stochastic | indicators.js:177-209 | %K and %D have one entry per bar; %K is `null` exactly before smoothK-1 and %D exactly before smoothD-1 |
| Oscillators.SmoothedKZeroDuringWarmup | indicators.js:202-203 | smoothed %K is 0, not `null`, between smoothK-1 and period-2, because the SMA reads the raw line's `null`s as 0 |
| Oscillators.StochasticInRange | indicators.js:177-209 | on valid bars every defined %K and %D lies in [0, 100] |
| Macd.MacdLine | indicators.js:150-157 | one MACD entry per bar |
| Macd.Histogram | indicators.js:164-171 | one histogram entry per MACD entry |
| Macd.CalculateMacd | indicators.js:146-174 | MACD is fast EMA minus slow EMA, `null` exactly when either is; the signal is the EMA of the MACD line; the histogram is MACD minus signal where both are defined |
| Macd.MacdLineWarmup | indicators.js:150-157 | for fast <= slow on enough bars, the MACD line is `null` exactly before slow-1 |
| Macd.MacdSignalMisaligned | indicators.js:161-162 | the signal line has \|bars\| + slow - 1 entries, so it is shifted against the bars |
| MarketData.Closes | backtest.js:60 | the closes as a series, one per bar |
| MarketData.HighestHigh | indicators.js:228 | the window's `Math.max` of highs: an upper bound that is attained |
| MarketData.LowestLow | indicators.js:229 | the window's `Math.min` of lows: a lower bound that is attained |
| MarketData.WindowRange | indicators.js:186-188 | on valid bars the window's lowest low is positive, at most its highest high, and brackets every close |
| Ichimoku.Midpoint | indicators.js:225-231 | `getAvg` is `null` exactly when fewer than `period` bars end at idx |
| Ichimoku.MidpointLine | indicators.js:233-235 | the tenkan/kijun loop gives the midpoint at every bar |
| Ichimoku.SpanALine | indicators.js:267-274 | span A at i is the average of tenkan and kijun at i-26 when both exist |
| Ichimoku.SpanBLine | indicators.js:281-290 | span B at i is the 52-bar midpoint ending at i-26 |
| Ichimoku.LaggingLine | indicators.js:299-313 | the lagging line at i is the close at i+26 |
| Ichimoku.CalculateIchimoku | indicators.js:212-318 | five lines as long as the bars; tenkan defined from bar 8, kijun from 25, span A from 51, span B from 77, lagging on all but the last 26 bars |
| Ichimoku.MidpointWithinRange | indicators.js:225-231 | a midpoint lies between the window's lowest low and highest high |
| Ichimoku.SpanALineAt | indicators.js:267-271 | the value of span A when both base lines are defined 26 bars earlier |
| Ichimoku.SpanAIsDisplaced | indicators.js:267-271 | span A at bar i is (tenkan[i-26] + kijun[i-26]) / 2 |
| Ichimoku.SpanBIsDisplaced | indicators.js:281-290 | span B at bar i is the 52-bar midpoint ending 26 bars earlier |
| Ichimoku.LaggingIsFutureClose | indicators.js:299-313 | the lagging line at bar i is the close 26 bars later |
| Ichimoku.MidpointPositive | indicators.js:225-231 | on valid bars a defined midpoint is positive |
| Ichimoku.BaseLinesAt | indicators.js:233-235 | tenkan and kijun at bar j are the 9- and 26-bar midpoints |
| Ichimoku.EarlySpanBNull | indicators.js:283-289 | span B is `null` before bar 77 |
| Ichimoku.TenkanPositive | indicators.js:234 | on valid bars tenkan is a positive price from bar 8 |
| Ichimoku.KijunPositive | indicators.js:235 | on valid bars kijun is a positive price from bar 25 |
| Ichimoku.SpanAPositive | indicators.js:267-271 | on valid bars span A is a positive price from bar 51 |
| Ichimoku.SpanALinePositive | indicators.js:267-271 | span A is positive wherever the tenkan and kijun it averages, 26 bars earlier, are |
| Ichimoku.EarlyCloud | indicators.js:265-290 | between bars 51 and 76 span B is `null` while span A is a positive price |
| DirectionalMovement.PlusDm | indicators.js:343-347 | +DM is non-negative |
| DirectionalMovement.MinusDm | indicators.js:343-350 | -DM is non-negative |
| DirectionalMovement.MovementExclusive | indicators.js:346-350 | at most one of +DM and -DM is non-zero at a bar |
| DirectionalMovement.MovementWithinRange | indicators.js:327-351 | on valid bars the true range is non-negative and bounds +DM + -DM |
| DirectionalMovement.TrueRanges | indicators.js:327-341 | one true range per bar, the first being high - low |
| DirectionalMovement.PlusDms | indicators.js:327-347 | one +DM per bar, the first being 0 |
| DirectionalMovement.MinusDms | indicators.js:327-350 | one -DM per bar, the first being 0 |
| DirectionalMovement.DecayMonotone | indicators.js:391-395 | one Wilder step keeps both smoothed movements non-negative and their sum within the smoothed range |
| DirectionalMovement.SmoothedDominated | indicators.js:364-399 | smoothing (initial sum, then prev - prev/period + cur) keeps a + b <= c for dominated non-negative inputs |
| DirectionalMovement.SmoothedMovementWithinRange | indicators.js:364-399 | the smoothed +DM and -DM are non-negative and together at most the smoothed true range |
| DirectionalMovement.Percent | indicators.js:379-380 | part/whole·100 is `NaN` exactly on a zero whole and otherwise in [0, 100] |
| DirectionalMovement.DirectionalIndex | indicators.js:383-407 | DX is in [0, 100] when a number; it is `NaN` exactly when a DI is `NaN` or, at the first DX only, when both DIs are 0 |
| DirectionalMovement.Dmi | indicators.js:360-409 | +DI, -DI and DX have one entry per bar and are `null` exactly during the first `period` bars |
| DirectionalMovement.DmiInRange | indicators.js:379-407 | every numeric +DI, -DI and DX lies in [0, 100], and +DI + -DI <= 100 |
| DirectionalMovement.PercentsAdd | indicators.js:401-402 | two shares of the same positive whole add up to at most 100 |
| DirectionalMovement.DiNaNExactlyOnZeroRange | indicators.js:372-381 | the first DIs are `NaN` exactly when the first `period` true ranges are all 0 |
| DirectionalMovement.SumZeroIffAllZero | indicators.js:364-369 | a sum of non-negative terms is 0 exactly when every term is |
| DirectionalMovement.LaterDxGuarded | indicators.js:406 | after the first DX, zero DIs give a DX of 0 |
| DirectionalMovement.FirstDxNaNWithoutMovement | indicators.js:379-383 | without directional movement in the first `period` bars, the first DX is `NaN` |
| AverageDirectionalIndex.MeanOf | indicators.js:436 | the first ADX is a number exactly when the DX sum is |
| AverageDirectionalIndex.WilderUpdate | indicators.js:443-444 | a later ADX is a number exactly when the previous ADX and the DX are |
| AverageDirectionalIndex.Scan | indicators.js:423-447 | the loop pushes one ADX entry per DX entry and is only done after a step |
| AverageDirectionalIndex.AdxLine | indicators.js:412-447 | the ADX line has one entry per DX entry |
| AverageDirectionalIndex.ScanPrefix | indicators.js:427-447 | each step of the loop only appends |
| AverageDirectionalIndex.ScanCounters | indicators.js:423-441 | on the DX shape, `dxCount` and `dxSum` accumulate the DX values from bar `period` on, and `firstAdxDone` holds exactly from bar 2p |
| AverageDirectionalIndex.ScanEmits | indicators.js:427-447 | on the DX shape the loop emits `null` before bar 2p-1 and a value from there on |
| AverageDirectionalIndex.ScanShape | indicators.js:423-447 | the counters and the emitted entries together |
| AverageDirectionalIndex.AdxLineWarmup | indicators.js:427-447 | the ADX is defined exactly from bar 2p-1 |
| AverageDirectionalIndex.AdxLineSeed | indicators.js:433-438 | the first ADX is the mean of DX over bars p .. 2p-1 |
| AverageDirectionalIndex.AdxLineRecurrence | indicators.js:442-445 | after the seed, ADX[i] = (ADX[i-1]·(p-1) + DX[i]) / p |
| AverageDirectionalIndex.DxTotalBounds | indicators.js:433 | the DX sum is a number exactly when every term is, and then lies in [0, 100·count] |
| AverageDirectionalIndex.MeanBounded | indicators.js:436 | a sum in [0, 100·p] gives a mean in [0, 100] |
| AverageDirectionalIndex.WilderBounded | indicators.js:444 | the smoothing step keeps values in [0, 100] |
| AverageDirectionalIndex.WilderUpdateBounded | indicators.js:443-445 | a numeric previous ADX and DX in [0, 100] give a next ADX in [0, 100] when it is a number |
| AverageDirectionalIndex.AdxLineInRange | indicators.js:427-447 | every numeric ADX lies in [0, 100] |
| AverageDirectionalIndex.AdxLineNaNSticky | indicators.js:442-445 | once the ADX is `NaN` it stays `NaN` |
| AverageDirectionalIndex.Adx | indicators.js:321-450 | `calculateADX` returns three lines as long as the bars, the DIs of the DMI pass, and an ADX defined exactly from bar 2p-1 |
| AverageDirectionalIndex.AdxInRange | indicators.js:321-450 | every numeric ADX lies in [0, 100] |
| AverageDirectionalIndex.AdxNaNWithoutEarlyMovement | indicators.js:379-383 | without directional movement in the first `period` bars, every ADX is `NaN` |
| Fibonacci.CalculateFibonacci | indicators.js:454-480 | `null` exactly on no bars; otherwise max and min are the attained extreme high and low, and the seven levels carry the fixed ratios and labels |
| Fibonacci.Levels | indicators.js:470-478 | there are seven levels |
| Fibonacci.RatiosIncrease | indicators.js:471-477 | the ratios run from 0 to 1 and strictly increase |
| Fibonacci.LevelPriceFacts | indicators.js:471-477 | each price is max - (max - min)·ratio, lies in [min, max], and does not increase with the level |
| Fibonacci.LevelsOrdered | indicators.js:470-478 | every level's price is max - diff·level, inside [min, max], and the prices do not increase |
| Fibonacci.RetracementOrdered | indicators.js:454-465 | on valid bars the result exists and min <= max |
| Signals.Indices | backtest.js:131-137 | the collected indices ascend and are exactly the hits from `start` on |
| Signals.FindConditions | backtest.js:131-137 | the indices from `start` on whose entry is a number satisfying the predicate, ascending |
| Signals.FindCrossovers | backtest.js:139-151 | the indices from `start` on at which A crosses B in the given direction, ascending |
| Signals.CrossingsDisjoint | backtest.js:144-148 | no index is both an upward and a downward crossing |
| Trades.MakeTrade | backtest.js:156-166 | a trade's dates, prices and days come from the entry and exit bars; the entry price times (1 + pnl) is the exit price; pnl > 0 exactly when the exit price is higher |
| Trades.KeptEntries | backtest.js:155-157 | the entries whose exit bar exists: exactly those with entry + horizon < \|bars\| |
| Trades.KeptEntriesAscending | backtest.js:155-157 | filtering keeps ascending entries ascending |
| Trades.FixedHorizonTrades | backtest.js:153-170 | at most one trade per entry, each lasting exactly the horizon |
| Trades.FixedHorizonTradesOfKeptEntries | backtest.js:155-168 | one trade per kept entry, in order: the k-th trade buys at the k-th kept entry and sells `horizon` bars later |
| Trades.LongerHorizonFewerTrades | backtest.js:153-170 | a longer horizon never yields more trades |
| Trades.FirstAfter | backtest.js:175 | `exitIndices.find(e => e > entryIdx)`: none exactly when no exit is later; otherwise the first later exit in list order |
| Trades.FirstAfterIsEarliest | backtest.js:175 | on ascending exits the found exit is the earliest later exit |
| Trades.SignalTrades | backtest.js:172-189 | at most one trade per entry, each with a positive duration |
| Trades.WithExit | backtest.js:174-176 | an entry is kept exactly when some exit follows it; never more than the entries |
| Trades.SignalTradesCount | backtest.js:172-189 | the trade count is the number of entries that have a later exit; no trades when no exit follows any entry |
| Trades.SignalTradesCloseAtFirstExit | backtest.js:172-187 | one trade per entry that has a later exit, in order: the k-th buys at that entry and sells at the first exit after it |
| Statistics.Wins | backtest.js:198 | the number of trades whose pnl is positive (the size of the set of their positions), never more than the trades |
| Statistics.BestReturn | backtest.js:201-206 | `maxWin` of the scan is non-negative, bounds every pnl, and is attained when positive |
| Statistics.WorstReturn | backtest.js:201-206 | `maxLoss` of the scan is non-positive, bounds every pnl from below, and is attained when negative |
| Statistics.CalculateStats | backtest.js:191-218 | count and trades are the input; wins count the positive pnls and wins + losses = count; on a non-empty list winRate = wins/count·100 and avgReturn·count = 100·Σpnl; all zeros on no trades; every pnl·100 lies between maxLoss and maxWin |
| Statistics.AverageReturn | backtest.js:213 | the average return in percent, times the number of trades, is 100 times the total return |
| Statistics.WinsExtremes | backtest.js:198 | wins equal the count exactly when every trade has a positive pnl, and 0 exactly when none has |
| Statistics.RateBounds | backtest.js:212 | wins/count·100 lies in [0, 100], is 100 exactly when all win and 0 exactly when none does |
| Statistics.WinRateRange | backtest.js:212 | the win rate is a percentage, 100 exactly when every trade wins and 0 exactly when none does |
| Statistics.AverageBetweenExtremes | backtest.js:199-215 | the average return lies between maxLoss and maxWin |
| Statistics.ExtremesAttained | backtest.js:201-206 | a positive maxWin and a negative maxLoss are the return of some trade |
| Backtest.StrategyOf | backtest.js:19-28 | a recognised key names a supported strategy |
| Backtest.KeysRoundTrip | backtest.js:19-28 | the key of a supported strategy maps back to it; exactly the eight supported keys are recognised; a recognised key maps back to itself |
| Backtest.StrategySignals | backtest.js:37-107 | the entry and exit indices ascend and stay inside the bars; an unknown strategy gives no signals |
| Backtest.HorizonTradesHeld | backtest.js:153-169 | the statistics of a horizon are those of one trade per kept entry, bought at the entry and sold that many bars later, in entry order |
| Backtest.SignalTradesClosed | backtest.js:172-188 | the signal statistics are those of one trade per entry with a later exit, sold at the first exit after it, in entry order |
| Backtest.HorizonStats | backtest.js:116-122 | the table has exactly the listed horizons; each horizon holds the statistics of the kept entries' trades held exactly that long, at most one per entry |
| Backtest.HorizonKeys | backtest.js:8-11 | the short horizons are {3, 5, 9, 14} and the long ones {65, 130, 195, 260} |
| Backtest.ReportOf | backtest.js:109-127 | the report's tables have exactly the horizon keys; each horizon holds the kept entries' trades held exactly that long; the signal statistics pair each entry with a later exit with the first exit after it, at most one trade per entry; no entries give all-zero statistics |
| Backtest.Run | backtest.js:33-128 | the report of the strategy's own entries and exits: the horizon keys, each horizon's trades from the kept entries, signal trades closed at the first later exit, and all-zero statistics for an unknown strategy |
| Backtest.ReportCount | backtest.js:116-122 | the count reported for a horizon is the number of fixed-horizon trades |
| Backtest.ReportHorizonCounts | backtest.js:116-122 | across both tables a longer horizon reports no more trades than a shorter one |
| Backtest.RunHorizonCounts | backtest.js:116-122 | the same for the report of `run` |
| Backtest.SignalTradesAtMostEntries | backtest.js:125 | the signal-exit trades never outnumber the entries |
| Backtest.RsiSignalsDisjoint | backtest.js:38-42 | an RSI entry (below 30) and an RSI exit (above 70) never fall on the same bar |
| Backtest.KumoNoEarlyExits | backtest.js:76-91 | the Kumo strategy never exits before bar 77, because the `null` span B makes the cloud bottom 0 |
| Backtest.KumoEarlyEntriesCrossSpanA | backtest.js:82-88 | between bars 52 and 76 a Kumo entry is exactly a close crossing above span A |
| MarketScreener.Flatten | market_screener.js:31-33 | a symbol is in the flattened list exactly when some sector lists it |
| MarketScreener.AllSymbols | market_screener.js:29-35 | no symbol twice, and a symbol is present exactly when some sector lists it |
| MarketScreener.AllSymbolsInFirstOccurrenceOrder | market_screener.js:29-35 | the `Set` keeps the symbols in order of first insertion |
| MarketScreener.SectorOf | market_screener.js:38-43 | a listed symbol gets the first sector that lists it; an unlisted one gets "Khác" |
| MarketScreener.UnlistedSymbolIsOther | market_screener.js:42 | a symbol outside all sectors is in "Khác" |
| MarketScreener.CandidateOf | market_screener.js:173-190 | a candidate copies the cell's statistics, its sector, strategy and horizon, and its total return is the average times the count |
| MarketScreener.HorizonCandidates | market_screener.js:171-192 | the candidates of one table are exactly its qualifying horizons |
| MarketScreener.ReportCandidates | market_screener.js:166-220 | the candidates of one symbol come from the tables of its strategies |
| MarketScreener.Candidates | market_screener.js:162-221 | the candidates of all symbols are exactly those of the symbols' reports |
| MarketScreener.CandidatesQualify | market_screener.js:172-198 | every candidate is a qualifying cell of some symbol, strategy and horizon, with at least 5 (short) or 3 (long) trades |
| MarketScreener.QualifyingHorizonsAreCandidates | market_screener.js:172-198 | every qualifying cell becomes a candidate |
| MarketScreener.RankIsBestPerSymbol | market_screener.js:224-242 | at most ten candidates, distinct symbols, non-increasing win rates, each the best candidate of its symbol |
| MarketScreener.RankIsTopTen | market_screener.js:224-242 | under ten means every symbol with a candidate is ranked; with ten, an unranked symbol's candidates do no better than the tenth |
| MarketScreener.ShortRankCoversAll | market_screener.js:228-242 | with fewer than ten rows every candidate's symbol is ranked |
| MarketScreener.FullRankBeatsLeftOut | market_screener.js:224-242 | with ten rows no candidate of an unranked symbol beats the tenth |
| MarketScreener.RankIsRanking | market_screener.js:224-242 | sorting by win rate, keeping the first row per symbol and taking ten gives at most ten candidates with distinct symbols, in non-increasing win rate, each the best of its symbol, and the top ten symbols |
| MarketScreener.TermRanking | market_screener.js:172-242 | a term's ranking is a ranking of that term's candidates, each with at least five (short) or three (long) trades |
| MarketScreener.GenerateRankings | market_screener.js:157-258 | each term's ranking has at most ten candidates of that term, all with enough trades, with distinct symbols, in non-increasing win rate, each the best row of its symbol; under ten rows every candidate's symbol is ranked, and with ten no unranked symbol beats the tenth; the totals are the symbols scanned and the eight strategies |
| MarketScreener.MonthWins | market_screener.js:358-359 | a month's wins never exceed its trades |
| MarketScreener.MonthScore | market_screener.js:370-371 | a month is scored exactly when it has at least two trades; the score is in [0, 1] and positive exactly when it has a win |
| MarketScreener.MonthScores | market_screener.js:369-377 | one score per calendar month |
| MarketScreener.BestMonth | market_screener.js:345-380 | no month on no trades; otherwise the first month with the highest positive win rate among months with two trades, and none when no such month has a win |
| MarketScreener.WinlessMonthNeverBest | market_screener.js:369-377 | a month without wins is never chosen |
| Lists.Dedup | market_screener.js:228-235 | the seen-set filter keeps no key twice, keeps only first occurrences, and represents every key |
| Lists.DedupIsFirstOccurrences | market_screener.js:228-235 | the filter keeps exactly the first occurrences in list order |
| Lists.DedupFromIsFirstOccurrences | market_screener.js:230-234 | from any position, with the keys seen so far, the filter keeps exactly the remaining first occurrences |
| Lists.DedupOfSorted | market_screener.js:224-238 | on a list sorted by score the dedup keeps the order and keeps the best element of each key |
| Lists.DedupKeepsOrder | market_screener.js:237-238 | dedup of a sorted list stays sorted |
| Lists.DedupKeepsBest | market_screener.js:237-238 | the element kept for a key scores at least as high as every element with that key |
| Lists.Take | market_screener.js:241-242 | `slice(0, n)`: the first min(n, \|xs\|) elements |
| Lists.Insert | market_screener.js:224 | insertion adds exactly one element (multiset) |
| Lists.InsertKeepsOrder | market_screener.js:224 | inserting into a non-increasing list keeps it non-increasing |
| Lists.InsertWithScore | market_screener.js:224 | among the elements of its own score, the new element goes in front of those already present, which keep their order |
| Lists.SortDescending | market_screener.js:224-225 | the sort is a permutation in non-increasing order of score |
| Lists.SortIsStable | market_screener.js:224-225 | elements with equal score keep their relative order |
| Lists.BestPerKeyOrdered | market_screener.js:224-238 | sort-then-dedup yields distinct keys from the input in non-increasing order |
| Lists.BestPerKeyIsBest | market_screener.js:224-238 | the element kept for a key scores at least as high as every input element with that key |
| Lists.KeptFor | market_screener.js:224-238 | every key of the input has a kept element |
| Lists.BestScanIsFirstBest | market_screener.js:366-377 | the "strictly better than the best so far, from 0" scan returns the first index of the highest positive score |
| Lists.FirstBest | app.js:1563-1593 | none exactly when no score is positive; otherwise a positive maximal score strictly above every earlier one |
| TopStrategy.TableEntries | app.js:1574-1575 | the entries of a table are exactly its listed horizons |
| TopStrategy.ReportEntries | app.js:1572-1575 | a report's entries are those of its short and long tables |
| TopStrategy.EntriesMembers | app.js:1568-1575 | the scanned entries are exactly those of the reports |
| TopStrategy.RateOf | app.js:1576 | 0 on no trades; otherwise a percentage, 100 exactly when all trades win and 0 exactly when none does |
| TopStrategy.Scores | app.js:1576-1578 | one score per entry |
| TopStrategy.TopOf | app.js:1580-1588 | the result copies the key, horizon, count, wins, average return and win rate, with total return = average·count |
| TopStrategy.BestEntry | app.js:1563-1593 | none exactly when no entry with three trades has a positive win rate; otherwise the first entry of the highest such win rate |
| TopStrategy.GetTopStrategy | app.js:1560-1596 | `null` without reports; a chosen strategy has a non-empty key; the top choice is returned whenever its key is non-empty |
| TopStrategy.Choose | app.js:1578-1595 | a chosen entry never has the empty key, and the top choice with a non-empty key is chosen |
| TopStrategy.TopChoiceIsBestEntry | app.js:1563-1593 | the scan settles on entry k exactly when k is the top choice, so there is at most one |
| TopStrategy.ChooseIsBestEntry | app.js:1563-1595 | a choice is the first entry of the highest positive win rate among entries with at least three trades; that entry is chosen whenever its key is non-empty; nothing is chosen when there is none |
| TopStrategy.TopStrategyIsBestEntry | app.js:1560-1596 | a result of `getTopStrategy` has a non-empty key and is the first entry of the highest positive win rate among entries with at least three trades; that entry is returned whenever its key is non-empty; `null` when there is none |
| TopStrategy.EmptyKeyNeverChosen | app.js:1595 | a best entry whose strategy key is "" gives `null` |
| TopStrategy.FewTradesNeverChosen | app.js:1578 | a chosen strategy has at least three trades |
| TopStrategy.ChosenFromSomeReport | app.js:1568-1589 | the chosen result is a horizon of the short or long table of some report |

## Left out

- Network fetching, DOM rendering, charts, the scanning loop and its progress
  reporting, and exports: these are I/O around the core.
- Labels (`LABELS`, `strategyLabel`, `timeframeLabel`), `lastPrice` and
  `generateRecommendation`: they only add display text to a ranking entry.
- `Math.sqrt`: a parameter `root`. Floating point is modelled as exact real
  arithmetic, and there are no IEEE infinities.
- The static `STOCK_LIST` is a parameter (a list of sectors in insertion
  order), not the literal table.
- Trade dates are `int`. `findBestMonth` receives each trade's calendar month
  (`None` for an unparsable date) instead of parsing date strings. The
  per-month `profit` is not modelled because nothing reads it.
- Reports are maps keyed by horizon. `generateRankings` and `getTopStrategy`
  walk the keys in the order of the horizon lists, which is the order
  JavaScript uses for integer keys. Keys outside those lists are not
  visited; `run` never creates any: its tables have exactly the keys that
  `Backtest.HorizonKeys` lists (`Backtest.ReportOf` states them), and
  `Backtest.KeysRoundTrip` shows the eight strategy keys
  are the only ones `run` recognises.
- `generateRankings` takes the per-symbol results as a list.
  `totalStocksScanned` is that list's length.
- AverageDirectionalIndex.Adx: requires valid bars (positive prices with
  low <= close <= high). That rules out x/0 with x non-zero, which JavaScript
  turns into an infinity.
- Backtest.Run: requires valid bars, for the same reason. Trade returns also
  divide by the entry close.
- Backtest.StrategySignals: requires valid bars, because it runs the ADX
  strategy.
- Trades.MakeTrade: requires non-zero closes. The return divides by the entry
  close.
- DirectionalMovement.Dmi: requires valid bars, like the ADX.
