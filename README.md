# Apollo core, modelled in Dafny

This project models the parts of the Apollo repository that hold its own logic. The model is written as Dafny functions, methods and lemmas, and every contract is proved.

**Quant strategies.** Fourteen single-direction trading strategies on bar data (open, high, low, close, volume):

- Traffic_Jam_S, DynamicBreakOutII_L and _S, Trading_Range_Breakout_S, Three_EMA_Crossover_System_L and _S;
- NoHurrySystem_S, AverageChannelRangeLeader_L, DisplacedBoll_S, Reference_Deviation_System_S;
- Going_in_Style_L, GhostTrader_S, FourSetofMACrossoverSys_L and VWM_S.

For each strategy, the model covers:

- the indicator pass it computes itself;
- the per-bar signal loop as a state machine, written as a `while` loop in a method;
- the length check that raises or returns an empty frame;
- the forced close on the last bar.

Each loop method is proved equal to a specification built from the loop body. That body is a `Step` function folded over the bars. Lemmas about that specification then state:

- when an entry or an exit is written;
- that the signal codes follow the tracked position;
- that entries and exits alternate;
- that the column ends flat, or says when it does not.

The `Common` and `Events` modules hold what the strategies share:

- indicator columns in which a missing value stands for NaN, so every comparison with it is false;
- Python's `min`/`max` and negative `iloc` positions;
- pandas `shift` and `ffill`;
- round-half-even;
- the reading of a signal column as a sequence of trade events.

**ForexFactory crawler.** Three pieces are modelled:

- The thread vectorizer's overlapping semantic chunker, with the chunk ids and metadata it builds.
- The thread-detail crawler:
  - the title taken from a URL;
  - the last page number;
  - post formatting;
  - the batch plan;
  - the stop at a repeated page;
  - the document it assembles.
- The forum-index crawler:
  - which anchors become thread links;
  - the index-page URLs;
  - the batched gathering of links.

**Executive tenure statistics** (`company_stay`):

- reading executives from the serialised executive list of a fund-manager row, with the same regular expressions as the source, written as string functions;
- counting executives per employer and sorting by that count;
- the ranking chart's labels and bars;
- the ranking page's HTML.

Network fetches are parameters of the crawler models: a function from a page number or URL to an optional page. A failed fetch is `None`.

Two behaviours of the code that the model reproduces as written:

- Three_EMA_Crossover_System_S (backup version): the stop update guarded by `position_bars > 0` never runs on an exit bar, because the exit resets `position_bars` to 0 first (`ThreeEmaCrossoverS.NoUpdateOnExitBar`).
- VWM_S writes with label indexing (`loc`). The model reads it as positional indexing, which is what it means on the default `RangeIndex`.

## Model

| member | source | states |
|---|---|---|
| Common.PyMin | quant/latestVer/strategy/NoHurrySystem_S.py:105-106 | Python's min returns one of its two arguments, and the smaller of two numbers |
| Common.PyMax | quant/backup/strategy/GhostTrader_S_strategy.py:107 | Python's max returns one of its two arguments, and the larger of two numbers |
| Common.Clip | quant/latestVer/strategy/DynamicBreakOutII_L.py:69 | the clipped value lies in [lo, hi] and a value already inside is unchanged |
| Common.Shift | quant/latestVer/strategy/AverageChannelRangeLeader_L.py:62-64 | shift(s) keeps the length, moves row k − s to row k and leaves the first s rows NaN |
| Common.FFillAt | quant/backup/strategy/VWM_S_strategy.py:73 | ffill keeps every value that is present |
| Common.FFill | quant/backup/strategy/VWM_S_strategy.py:73 | ffill keeps the length and fills each row from the last value at or before it |
| Common.RoundHalfEven | quant/latestVer/strategy/DynamicBreakOutII_L.py:77 | round() gives an integer within 0.5 of its argument, and on a tie the even one, so round(2.5) is 2 |
| Common.MergeParams | quant/backup/strategy/GhostTrader_S_strategy.py:45 | the merged parameters hold every default key and every caller key, the caller's value winning |
| Events.ForceClose | quant/latestVer/strategy/Traffic_Jam_S.py:189-190 | the forced close keeps the column's length |
| Events.FollowsAlternates | quant/latestVer/strategy/Traffic_Jam_S.py:162-185 | when every bar's code is the change of a flat-or-one-way position, the codes alternate entry, exit, … and their number is odd exactly when the position is still open |
| Events.ForcedCloseBalances | quant/latestVer/strategy/Traffic_Jam_S.py:189-190 | unless an entry lands on the last bar, the forced close leaves alternating codes with as many exits as entries |
| Events.ForcedCloseOverwritesEntry | quant/latestVer/strategy/Traffic_Jam_S.py:170-190 | an entry written on the last bar is overwritten by the exit, which then follows a balanced history (lines 170, 189-190) |
| TrafficJamS.Sf | quant/latestVer/strategy/Traffic_Jam_S.py:75 | the smoothing factor 1/N lies in (0, 1] |
| TrafficJamS.DirectionalMove | quant/latestVer/strategy/Traffic_Jam_S.py:89-90 | a side's movement is never negative, is positive exactly when its move beats the other side's and is positive, and then equals the move |
| TrafficJamS.DmOneSided | quant/latestVer/strategy/Traffic_Jam_S.py:89-90 | plus_dm and minus_dm are never both positive on the same bar |
| TrafficJamS.DmiColumnsStep | quant/latestVer/strategy/Traffic_Jam_S.py:78-135 | writing bar i's row extends the columns written through bar i-1 to the columns through bar i |
| TrafficJamS.SeedSums | quant/latestVer/strategy/Traffic_Jam_S.py:81-94 | the seed loop at bar N returns the sums of the directional movements and true ranges of bars N down to 1 |
| TrafficJamS.DmiRow | quant/latestVer/strategy/Traffic_Jam_S.py:79-126 | the loop body up to DX: the seed or Wilder step of the averages, DMI+ and DMI− (0 when Volty ≤ 0), and DX |
| TrafficJamS.ComputeDmi | quant/latestVer/strategy/Traffic_Jam_S.py:78-135 | for DMI_N ≥ 1, the DMI loop over bars N..len-1 writes exactly the recurrence's columns, with DX and ADX defined and within [0, 100] from bar N on |
| TrafficJamS.DmiPass | quant/latestVer/strategy/Traffic_Jam_S.py:74-135 | `sf = 1.0 / n` raises exactly when DMI_N is 0; otherwise the pass yields the DMI loop's columns, with ADX within [0, 100] from bar N on |
| TrafficJamS.DmiColumnsBounded | quant/latestVer/strategy/Traffic_Jam_S.py:113-135 | once every bar is written, DX and ADX are defined from bar N on and lie in [0, 100] |
| TrafficJamS.AdxRow | quant/latestVer/strategy/Traffic_Jam_S.py:129-135 | ADX at bar N is the NaN-skipping sum of the DMI column over N+1, later a Wilder step; ADXR averages ADX with the value DMI_M bars back |
| TrafficJamS.SmoothingStaysInRange | quant/latestVer/strategy/Traffic_Jam_S.py:108-110 | a Wilder step a + sf·(b − a) with 0 < sf ≤ 1 stays between bounds holding a and b |
| TrafficJamS.AvgDmNonNegative | quant/latestVer/strategy/Traffic_Jam_S.py:96-109 | the smoothed movement averages are never negative (lines 96-97, 108-109) |
| TrafficJamS.DxBounded | quant/latestVer/strategy/Traffic_Jam_S.py:121-126 | DX lies in [0, 100] when DMI+ and DMI− are non-negative, and is 0 when their sum is 0 |
| TrafficJamS.AdxBounded | quant/latestVer/strategy/Traffic_Jam_S.py:129-135 | ADX lies in [0, 100] on every bar where it is defined |
| TrafficJamS.ConsecBarsCountMeaning | quant/latestVer/strategy/Traffic_Jam_S.py:141-142 | ConsecBarsCount lies in [0, ConsecBars] and equals ConsecBars exactly when each of the last ConsecBars closes exceeded its predecessor |
| TrafficJamS.ProtectStopSAt | quant/latestVer/strategy/Traffic_Jam_S.py:145 | for k ≥ 1, ProtectStopS[k] is high[k-1] plus ProtectStopATRMulti times ATR[k-1], NaN when ATR[k-1] is NaN |
| TrafficJamS.LoopColumn | quant/latestVer/strategy/Traffic_Jam_S.py:155-186 | the loop's call column has one entry per bar, none before min_length |
| TrafficJamS.GenerateSignals | quant/latestVer/strategy/Traffic_Jam_S.py:149-192 | the method returns the empty frame when len < max(DMI_N, ATRLength), otherwise the state machine's column with the forced close |
| TrafficJamS.StateShape | quant/latestVer/strategy/Traffic_Jam_S.py:158-186 | between bars the position is 0 or −1, prev_position equals it, and a flat book has no bar count |
| TrafficJamS.EntryExactly | quant/latestVer/strategy/Traffic_Jam_S.py:164-172 | −1 is written exactly when flat, i > DMI_N, vol > 0, ConsecBarsCount[i-1] = ConsecBars and both ADX conditions hold |
| TrafficJamS.ExitExactly | quant/latestVer/strategy/Traffic_Jam_S.py:174-184 | 0 is written exactly when short, vol > 0 and either position_bars reaches ProactiveStopBars or high[i] ≥ ProtectStopS[i-1]; never on the entry bar |
| TrafficJamS.ProtectiveExitLevel | quant/latestVer/strategy/Traffic_Jam_S.py:145-179 | with the indicator pass's column, the protective exit compares high[i] with high[i-2] + ProtectStopATRMulti·ATR[i-2] (lines 145, 179) |
| TrafficJamS.PositionBarsCountVolumeBars | quant/latestVer/strategy/Traffic_Jam_S.py:172-175 | after an entry on bar e with no event since, position_bars is the number of positive-volume bars after e |
| TrafficJamS.CallIsTransition | quant/latestVer/strategy/Traffic_Jam_S.py:169-186 | every bar's code is exactly the code of the position change across it |
| TrafficJamS.NetFlat | quant/latestVer/strategy/Traffic_Jam_S.py:186-190 | unless an entry lands on the last bar, the returned column alternates entry and exit and ends flat |
| TrafficJamS.LastBarEntryOverwritten | quant/latestVer/strategy/Traffic_Jam_S.py:169-190 | an entry on the last bar is overwritten by the forced close, leaving an unmatched exit (lines 169-171, 189-190) |
| DynamicBreakOut.DeltaVolatility | quant/latestVer/strategy/DynamicBreakOutII_L.py:63-69 | deltaVolatility lies in [−1, 1] and is 0 where todayVolatility is not positive or is undefined |
| DynamicBreakOut.Clamp | quant/latestVer/strategy/DynamicBreakOutII_L.py:78-79 | the clamped value is at least floorAmt, and at most ceilingAmt when floorAmt ≤ ceilingAmt |
| DynamicBreakOut.NextLookBack | quant/latestVer/strategy/DynamicBreakOutII_L.py:76-79 | one lookback step is round-half-even of prev·(1+delta), capped at ceilingAmt and then raised to floorAmt, so floorAmt wins when the bounds cross |
| DynamicBreakOut.ComputeLookBack | quant/latestVer/strategy/DynamicBreakOutII_L.py:72-79 | the loop leaves lookBackDays[0] = 20 and every later value equal to the recurrence's |
| DynamicBreakOut.LookBackPositive | quant/latestVer/strategy/DynamicBreakOutII_L.py:72-79 | every lookback is at least 1 when floorAmt is |
| DynamicBreakOut.Channel | quant/latestVer/strategy/DynamicBreakOutII_L.py:90-98 | MidLine, Band, buyPoint and sellPoint are defined at i exactly when i ≥ lookBackDays[i] − 1, over the trailing lookBackDays[i] bars ending at i |
| DynamicBreakOut.ComputeChannels | quant/latestVer/strategy/DynamicBreakOutII_L.py:84-98 | the channel loop writes each bar's channel and leaves NaN where the window does not fit |
| DynamicBreakOut.BandsAroundMidLine | quant/latestVer/strategy/DynamicBreakOutII_L.py:101-105 | where the channel is defined, upBand − dnBand = 2·bolBandTrig·Band, centred on MidLine, which is also LiqPoint |
| DynamicBreakOut.CalculateIndicators | quant/latestVer/strategy/DynamicBreakOutII_L.py:57-107 | the indicator pass yields the lookback recurrence, the channel columns and the bands for every bar |
| DynamicBreakOut.ChannelOfPass | quant/latestVer/strategy/DynamicBreakOutII_L.py:90-105 | a bar of the pass's frame has a channel exactly when its window fits, and then the channel's extremes and mean |
| DynamicBreakOut.AboveUpperBandIsAboveMid | quant/latestVer/strategy/DynamicBreakOutII_L.py:101-134 | a close above the upper band is above the mid line, the band being a non-negative width (lines 101, 134) |
| DynamicBreakOut.BelowLowerBandIsBelowMid | quant/latestVer/strategy/DynamicBreakOutII_L.py:102-151 | a close below the lower band is below the mid line (lines 102, 151) |
| DynamicBreakOutIIL.GenerateSignals | quant/latestVer/strategy/DynamicBreakOutII_L.py:109-162 | raises ValueError when len < floorAmt, otherwise returns the long state machine's column with the forced close |
| DynamicBreakOutIIL.PositionShape | quant/latestVer/strategy/DynamicBreakOutII_L.py:118-156 | the book is always flat or long |
| DynamicBreakOutIIL.EntryExactly | quant/latestVer/strategy/DynamicBreakOutII_L.py:133-139 | 1 is written exactly when flat, close[i-1] > upBand[i-1] and high[i] ≥ buyPoint[i-1]; there is no volume gate |
| DynamicBreakOutIIL.ExitExactly | quant/latestVer/strategy/DynamicBreakOutII_L.py:142-156 | 0 is written exactly when long and either low[i] ≤ LiqPoint[i-1] or close[i-1] < dnBand[i-1] and low[i] ≤ sellPoint[i-1]; one code per exit bar |
| DynamicBreakOutIIL.EntryAboveMidLine | quant/latestVer/strategy/DynamicBreakOutII_L.py:90-135 | an entry on bar i needs bar i-1's window to fit and the previous close above its mid line (lines 90-101, 133-135) |
| DynamicBreakOutIIL.EntryReachesPreviousHigh | quant/latestVer/strategy/DynamicBreakOutII_L.py:97-135 | an entry bar's high is at or above every high of the previous bar's window (lines 97, 135) |
| DynamicBreakOutIIL.LiquidationFirst | quant/latestVer/strategy/DynamicBreakOutII_L.py:142-147 | the LiqPoint exit fires on any long bar whose low reaches the previous mid line, whatever the bands say |
| DynamicBreakOutIIL.CallIsTransition | quant/latestVer/strategy/DynamicBreakOutII_L.py:133-156 | every bar's code is exactly the code of the position change across it |
| DynamicBreakOutIIL.NetFlat | quant/latestVer/strategy/DynamicBreakOutII_L.py:158-160 | unless an entry lands on the last bar, the returned column alternates entry and exit and ends flat |
| DynamicBreakOutIIL.LastBarEntryOverwritten | quant/latestVer/strategy/DynamicBreakOutII_L.py:138-160 | an entry on the last bar is overwritten by the forced close (lines 138, 159-160) |
| DynamicBreakOutIIS.ForceCloseRows | quant/backup/strategy/DynamicBreakOutII_S_strategy.py:157-158 | a short still open turns the last row into [1, Lots, NaN, close[-1], 0] |
| DynamicBreakOutIIS.GenerateSignals | quant/backup/strategy/DynamicBreakOutII_S_strategy.py:103-160 | raises ValueError when len < ceilingAmt, otherwise returns the five-field rows of the short state machine with the forced cover |
| DynamicBreakOutIIS.StateShape | quant/backup/strategy/DynamicBreakOutII_S_strategy.py:116-154 | the book is always flat or short, and a flat book has no bar count |
| DynamicBreakOutIIS.EntryExactly | quant/backup/strategy/DynamicBreakOutII_S_strategy.py:128-135 | −1 is written exactly when flat, close[i-1] < dnBand[i-1] and low[i] ≤ sellPoint[i-1], at min(open[i], sellPoint[i-1]) ≤ sellPoint[i-1] |
| DynamicBreakOutIIS.ExitExactly | quant/backup/strategy/DynamicBreakOutII_S_strategy.py:137-154 | a cover is written exactly when short and the reversal breakout or the LiqPoint rule holds, the reversal first, at max(open[i], level) ≥ level |
| DynamicBreakOutIIS.EventsAreEntriesOrCovers | quant/backup/strategy/DynamicBreakOutII_S_strategy.py:133-158 | every event row is an entry (−1) or a cover (1) (lines 133, 144, 152, 158) |
| DynamicBreakOutIIS.PositionFieldMarksEntriesOnly | quant/backup/strategy/DynamicBreakOutII_S_strategy.py:110-152 | the position field reads −1 only on entry rows; rows where the short is merely held keep 0 (lines 110-114, 133, 144, 152) |
| DynamicBreakOutIIS.CallIsTransition | quant/backup/strategy/DynamicBreakOutII_S_strategy.py:128-154 | every bar's signal code is exactly the code of the position change across it |
| DynamicBreakOutIIS.NetFlat | quant/backup/strategy/DynamicBreakOutII_S_strategy.py:156-158 | unless an entry lands on the last bar, the signal column alternates entry and cover and ends flat |
| DynamicBreakOutIIS.LastBarEntryOverwritten | quant/backup/strategy/DynamicBreakOutII_S_strategy.py:133-158 | an entry on the last bar is overwritten by the forced cover at the last close (lines 133, 157-158) |
| DynamicBreakOutIIS.ParamsMerge | quant/backup/strategy/DynamicBreakOutII_S_strategy.py:43 | the parameters are the defaults overridden key by key by the caller's |
| TradingRangeBreakoutS.ConstructorOverridesCaller | quant/latestVer/strategy/Trading_Range_Breakout_S.py:43-52 | whatever the caller passes, RangeLen, RngPcnt, ATRs, ATRLen and Lots take the hard-coded values; other keys survive |
| TradingRangeBreakoutS.RangeHAt | quant/latestVer/strategy/Trading_Range_Breakout_S.py:57 | RangeH[i] is the highest high of bars i-7 .. i-1, bar i excluded, and NaN before bar 7 |
| TradingRangeBreakoutS.RangeLAt | quant/latestVer/strategy/Trading_Range_Breakout_S.py:58 | RangeL[i] is the lowest low of bars i-7 .. i-1, and NaN before bar 7 |
| TradingRangeBreakoutS.TRangeNonNegative | quant/latestVer/strategy/Trading_Range_Breakout_S.py:57-59 | TRange is never negative where defined, since every bar has high ≥ low |
| TradingRangeBreakoutS.NoTradesNonNegative | quant/latestVer/strategy/Trading_Range_Breakout_S.py:66-81 | NoTrades is a sum of gaps clipped at 0, so it is never negative |
| TradingRangeBreakoutS.GapsAreInsideRange | quant/latestVer/strategy/Trading_Range_Breakout_S.py:70-78 | the clip never bites: each gap is taken from a bar inside the range window, so every raw gap is already ≥ 0 |
| TradingRangeBreakoutS.LoopData | quant/latestVer/strategy/Trading_Range_Breakout_S.py:91-97 | the loop reads well-formed columns: condition1..4 computed from the shifted indicator columns |
| TradingRangeBreakoutS.Signals | quant/latestVer/strategy/Trading_Range_Breakout_S.py:132-133 | the returned column has one entry per bar; the chained forced close writes only when the assignment reaches the frame |
| TradingRangeBreakoutS.SignalLoop | quant/latestVer/strategy/Trading_Range_Breakout_S.py:99-135 | the loop from bar RangeLen on returns the state machine's column and changes nothing else |
| TradingRangeBreakoutS.CalculateIndicators | quant/latestVer/strategy/Trading_Range_Breakout_S.py:54-83 | the caller's frame gains RangeH, RangeL, TRange, ATR, ATRMA and NoTrades in place; nothing else changes |
| TradingRangeBreakoutS.GenerateSignals | quant/latestVer/strategy/Trading_Range_Breakout_S.py:85-135 | the caller's frame gains mid_price and condition1..4 in place, and the result is the signal loop's column |
| TradingRangeBreakoutS.StepTransition | quant/latestVer/strategy/Trading_Range_Breakout_S.py:108-130 | one step keeps the book flat or short and writes exactly the code of its position change |
| TradingRangeBreakoutS.StepWhileShort | quant/latestVer/strategy/Trading_Range_Breakout_S.py:117-120 | a step while short lowers short_low to the bar's low when needed and keeps short_risk |
| TradingRangeBreakoutS.StateShape | quant/latestVer/strategy/Trading_Range_Breakout_S.py:99-130 | between bars the book is flat or short, and a flat book has no bar count |
| TradingRangeBreakoutS.EntryExactly | quant/latestVer/strategy/Trading_Range_Breakout_S.py:108-115 | −1 is written exactly when flat with condition1, condition2, condition4 and vol > 0; short_risk = RangeH[i] and short_low = low[i] |
| TradingRangeBreakoutS.ExitExactly | quant/latestVer/strategy/Trading_Range_Breakout_S.py:117-130 | 0 is written exactly when short and condition3, or high ≥ short_risk, or high ≥ short_low + ATRs·ATR[i], in that priority and with no volume gate |
| TradingRangeBreakoutS.ShortLowIsRunningMinimum | quant/latestVer/strategy/Trading_Range_Breakout_S.py:114-120 | after an entry on bar e with no event since, short_low is the lowest low of bars e .. i-1 (lines 114, 120) |
| TradingRangeBreakoutS.CallIsTransition | quant/latestVer/strategy/Trading_Range_Breakout_S.py:107-130 | every bar's code is exactly the code of the position change across it |
| TradingRangeBreakoutS.NetFlat | quant/latestVer/strategy/Trading_Range_Breakout_S.py:132-133 | when the forced close writes and no entry lands on the last bar, the column alternates and ends flat |
| TradingRangeBreakoutS.ForcedCloseLost | quant/latestVer/strategy/Trading_Range_Breakout_S.py:132-133 | when the chained assignment does not write, a short still open stays open: entries outnumber exits |
| ThreeEmaCrossoverL.BuyCon1 | quant/latestVer/strategy/Three_EMA_Crossover_System_L.py:67 | BuyCon1[i] holds exactly when Avg1[i] > Avg2[i] and i ≥ 1 with Avg1[i-1] ≤ Avg2[i-1] |
| ThreeEmaCrossoverL.NoCrossoverTwiceInARow | quant/latestVer/strategy/Three_EMA_Crossover_System_L.py:67 | BuyCon1 cannot hold on two bars in a row |
| ThreeEmaCrossoverL.RangeL | quant/latestVer/strategy/Three_EMA_Crossover_System_L.py:63-64 | RangeL is the RLength-bar mean of high − low, defined exactly from bar RLength − 1 on |
| ThreeEmaCrossoverL.GenerateSignals | quant/latestVer/strategy/Three_EMA_Crossover_System_L.py:74-134 | raises ValueError when len < max(AvgLen1, AvgLen2, AvgLen3, RLength), otherwise returns the long state machine's column with the forced close |
| ThreeEmaCrossoverL.TrailedStopTestsLikeOldStop | quant/latestVer/strategy/Three_EMA_Crossover_System_L.py:120-124 | with stop' = stop + 0.25·(low − stop), low ≤ stop' holds exactly when low ≤ stop |
| ThreeEmaCrossoverL.StepTransition | quant/latestVer/strategy/Three_EMA_Crossover_System_L.py:90-128 | one step keeps the book flat or long and writes exactly the code of its position change |
| ThreeEmaCrossoverL.StateShape | quant/latestVer/strategy/Three_EMA_Crossover_System_L.py:86-128 | between bars the book is flat or long, the bar count is non-negative and the stop is never NaN |
| ThreeEmaCrossoverL.StopSeedIsDead | quant/latestVer/strategy/Three_EMA_Crossover_System_L.py:92-118 | position_bars is at least 1 whenever the exits are tested, so the initial-stop branch never runs (lines 92-93, 117-118) |
| ThreeEmaCrossoverL.EntryExactly | quant/latestVer/strategy/Three_EMA_Crossover_System_L.py:96-103 | 1 is written exactly when flat, BuyCon1[i-1], Avg2[i-1] > Avg3[i-1] and vol[i] > 0 |
| ThreeEmaCrossoverL.ExitExactly | quant/latestVer/strategy/Three_EMA_Crossover_System_L.py:106-128 | 0 is written exactly when long, vol[i] > 0 and either Avg1[i-1] < Avg2[i-1] (tested first) or low[i] reaches the trailed stop |
| ThreeEmaCrossoverL.StopNotResetByExit | quant/latestVer/strategy/Three_EMA_Crossover_System_L.py:88-128 | an exit keeps long_stop_price, so the next trade trails from where the last one stopped (lines 88, 111-113, 126-128) |
| ThreeEmaCrossoverL.CallIsTransition | quant/latestVer/strategy/Three_EMA_Crossover_System_L.py:90-128 | every bar's code is exactly the code of the position change across it |
| ThreeEmaCrossoverL.NetFlat | quant/latestVer/strategy/Three_EMA_Crossover_System_L.py:131-132 | unless an entry lands on the last bar, the returned column alternates entry and exit and ends flat |
| ThreeEmaCrossoverL.LastBarEntryOverwritten | quant/latestVer/strategy/Three_EMA_Crossover_System_L.py:100-132 | an entry on the last bar is overwritten by the forced close (lines 100, 131-132) |
| ThreeEmaCrossoverS.SellCon1 | quant/backup/strategy/Three_EMA_Crossover_System_S_strategy.py:60 | SellCon1[i] holds exactly when Avg1[i] < Avg2[i] and i ≥ 1 with Avg1[i-1] > Avg2[i-1] |
| ThreeEmaCrossoverS.NoCrossUnderTwiceInARow | quant/backup/strategy/Three_EMA_Crossover_System_S_strategy.py:60 | SellCon1 cannot hold on two bars in a row |
| ThreeEmaCrossoverS.RangeS | quant/backup/strategy/Three_EMA_Crossover_System_S_strategy.py:56-57 | RangeS is the RLength-bar mean of high − low, defined exactly from bar RLength − 1 on |
| ThreeEmaCrossoverS.GenerateSignals | quant/backup/strategy/Three_EMA_Crossover_System_S_strategy.py:64-120 | raises ValueError when len < the largest of the four lengths, otherwise returns the short state machine's column with the forced close |
| ThreeEmaCrossoverS.ShadeIsWeightedMean | quant/backup/strategy/Three_EMA_Crossover_System_S_strategy.py:114 | the update stop − (stop − high)/3 is the weighted mean (2·stop + high)/3 |
| ThreeEmaCrossoverS.StepTransition | quant/backup/strategy/Three_EMA_Crossover_System_S_strategy.py:81-114 | one step keeps the book flat or short and writes exactly the code of its position change |
| ThreeEmaCrossoverS.StateShape | quant/backup/strategy/Three_EMA_Crossover_System_S_strategy.py:75-114 | between bars the book is flat or short with a non-negative bar count |
| ThreeEmaCrossoverS.EntryExactly | quant/backup/strategy/Three_EMA_Crossover_System_S_strategy.py:81-91 | −1 is written exactly when flat, SellCon1[i-1], Avg2[i-1] < Avg3[i-1] and vol[i] > 0; both stops become high[i] + RangeS[i] |
| ThreeEmaCrossoverS.ExitExactly | quant/backup/strategy/Three_EMA_Crossover_System_S_strategy.py:93-109 | 0 is written exactly when short, vol[i] > 0 and Avg1[i-1] > Avg2[i-1] (first) or high[i] ≥ prev_short_stop_price |
| ThreeEmaCrossoverS.NoUpdateOnExitBar | quant/backup/strategy/Three_EMA_Crossover_System_S_strategy.py:102-114 | the exit resets position_bars first, so the stop update does not run on the exit bar (lines 102, 109, 112-114) |
| ThreeEmaCrossoverS.TwoBarLag | quant/backup/strategy/Three_EMA_Crossover_System_S_strategy.py:90-114 | in a trade entered on bar e, the stop tested on bar i ≥ e + 2 is the one produced by the update on bar i − 2 (lines 90-91, 105, 113-114) |
| ThreeEmaCrossoverS.CallIsTransition | quant/backup/strategy/Three_EMA_Crossover_System_S_strategy.py:81-114 | every bar's code is exactly the code of the position change across it |
| ThreeEmaCrossoverS.NetFlat | quant/backup/strategy/Three_EMA_Crossover_System_S_strategy.py:116-118 | unless an entry lands on the last bar, the returned column alternates entry and exit and ends flat |
| ThreeEmaCrossoverS.LastBarEntryOverwritten | quant/backup/strategy/Three_EMA_Crossover_System_S_strategy.py:86-118 | an entry on the last bar is overwritten by the forced close (lines 86, 117-118) |
| Common.Scaled | quant/latestVer/strategy/NoHurrySystem_S.py:62 | a column times a constant (ATRVal = ATR·TrailingATRs), row by row, NaN where the column is NaN |
| NoHurrySystemS.LoopColumn | quant/latestVer/strategy/NoHurrySystem_S.py:81-112 | the loop's column has one entry per bar, none before ChanLength + ChanDelay |
| NoHurrySystemS.ShortBar | quant/latestVer/strategy/NoHurrySystem_S.py:96-112 | a bar while short counts one more bar, lowers PosLow to the low when lower, and is stopped exactly when the high reaches the stop line |
| NoHurrySystemS.GenerateSignals | quant/latestVer/strategy/NoHurrySystem_S.py:66-118 | raises ValueError when len < ChanLength + ChanDelay, otherwise returns the short state machine's column from that bar on, with the forced cover |
| NoHurrySystemS.StepTransition | quant/latestVer/strategy/NoHurrySystem_S.py:87-112 | one step keeps the book flat or short and writes exactly the code of its position change, entries −1 and covers 1 |
| NoHurrySystemS.StateShape | quant/latestVer/strategy/NoHurrySystem_S.py:76-112 | between bars the book is flat or short, and while short PosLow is a price |
| NoHurrySystemS.EntryExactly | quant/latestVer/strategy/NoHurrySystem_S.py:84-92 | −1 is written exactly when flat, low[i] ≤ LowerChan[i-ChanDelay-1] and low[i-1] > LowerChan[i-ChanDelay-2]; there is no volume gate |
| NoHurrySystemS.ExitExactly | quant/latestVer/strategy/NoHurrySystem_S.py:96-112 | 1 (not 0) is written exactly when short and high[i] ≥ min(PosLow + ATRVal[i-1], UpperChan[i-ChanDelay-1] + 1) with the updated PosLow |
| NoHurrySystemS.StoplineBelowBoth | quant/latestVer/strategy/NoHurrySystem_S.py:105-106 | the stop line is never above the delayed channel high plus a tick nor above the trailing ATR stop |
| NoHurrySystemS.StepEntry | quant/latestVer/strategy/NoHurrySystem_S.py:88-92 | an entry bar leaves the book short with PosLow at its low and the count reset |
| NoHurrySystemS.StepWhileShort | quant/latestVer/strategy/NoHurrySystem_S.py:97-101 | while short and not stopped, a bar lowers PosLow to its low when lower and counts one more bar; the `bars_since_entry == 0` branch is dead |
| NoHurrySystemS.PosLowIsRunningMinimum | quant/latestVer/strategy/NoHurrySystem_S.py:91-101 | after an entry on bar e with no event since, PosLow is the lowest low of bars e .. i-1 (lines 91, 97-101) |
| NoHurrySystemS.CallIsTransition | quant/latestVer/strategy/NoHurrySystem_S.py:87-112 | every bar's code is exactly the code of the position change across it |
| NoHurrySystemS.NetFlat | quant/latestVer/strategy/NoHurrySystem_S.py:109-116 | entries are −1 and covers 1; unless an entry lands on the last bar they alternate and the column ends flat (lines 109, 115-116) |
| NoHurrySystemS.LastBarEntryOverwritten | quant/latestVer/strategy/NoHurrySystem_S.py:89-116 | an entry on the last bar is overwritten by the forced cover (lines 89, 115-116) |
| AverageChannelRangeLeaderL.RangeLeaderRises | quant/latestVer/strategy/AverageChannelRangeLeader_L.py:56-67 | on well-formed bars a RangeLeadB bar (MedianPrice above the previous high and a wider range) has a higher high than the bar before |
| AverageChannelRangeLeaderL.GenerateSignals | quant/latestVer/strategy/AverageChannelRangeLeader_L.py:71-116 | raises ValueError when len < AvgLen + AbsDisp, otherwise returns the long state machine's column with the forced close |
| AverageChannelRangeLeaderL.StepTransition | quant/latestVer/strategy/AverageChannelRangeLeader_L.py:89-111 | one step keeps the book flat or long and writes exactly the code of its position change |
| AverageChannelRangeLeaderL.StateShape | quant/latestVer/strategy/AverageChannelRangeLeader_L.py:85-111 | between bars the book is flat or long with a non-negative bar count |
| AverageChannelRangeLeaderL.EntryExactly | quant/latestVer/strategy/AverageChannelRangeLeader_L.py:89-94 | 1 is written exactly when flat, RangeLeadB[i-1] and close[i-1] > UpperAvg[i-1]; there is no volume gate |
| AverageChannelRangeLeaderL.ExitExactly | quant/latestVer/strategy/AverageChannelRangeLeader_L.py:96-111 | 0 is written exactly when long and low[i] reaches bar i's own stop level for the trade's phase |
| AverageChannelRangeLeaderL.BarsInTrade | quant/latestVer/strategy/AverageChannelRangeLeader_L.py:94-97 | after an entry on bar e with no event since, position_bars before bar i is i − 1 − e (lines 94, 97) |
| AverageChannelRangeLeaderL.TwoPhaseStop | quant/latestVer/strategy/AverageChannelRangeLeader_L.py:99-111 | a trade entered on bar e closes on bar i exactly when low[i] ≤ ExitAvg[i] while i − e ≤ ExitBar, and low[i] ≤ UpperAvg[i] − 1 afterwards |
| AverageChannelRangeLeaderL.CallIsTransition | quant/latestVer/strategy/AverageChannelRangeLeader_L.py:88-111 | every bar's code is exactly the code of the position change across it |
| AverageChannelRangeLeaderL.NetFlat | quant/latestVer/strategy/AverageChannelRangeLeader_L.py:113-114 | unless an entry lands on the last bar, entries and exits alternate and the column ends flat |
| AverageChannelRangeLeaderL.LastBarEntryOverwritten | quant/latestVer/strategy/AverageChannelRangeLeader_L.py:92-114 | an entry on the last bar is overwritten by the forced exit (lines 92, 113-114) |
| DisplacedBollS.SquaredDiff | quant/latestVer/strategy/DisplacedBoll_S.py:64-66 | squared_diff[k], the square of close[k]'s distance from the SDLen-bar mean ending at bar k, is never negative |
| DisplacedBollS.SumSquaredDiffNonNegative | quant/latestVer/strategy/DisplacedBoll_S.py:67 | a window sum of squared differences is never negative |
| DisplacedBollS.Variance | quant/latestVer/strategy/DisplacedBoll_S.py:65-67 | the variance is defined exactly when SDLen ≥ 2 and i ≥ 2·SDLen − 2, and is then never negative |
| DisplacedBollS.SDmultNonNegative | quant/latestVer/strategy/DisplacedBoll_S.py:64-68 | SDmult, the square root of the variance scaled by SDev, is never negative for SDev ≥ 0 and is NaN exactly where the variance is |
| DisplacedBollS.ChannelAroundDisplacedMean | quant/latestVer/strategy/DisplacedBoll_S.py:71-72 | DispTop − DispBottom = 2·SDmult, centred on AvgVal[i − Disp], and both are NaN for the first Disp bars |
| DisplacedBollS.CalculateIndicators | quant/latestVer/strategy/DisplacedBoll_S.py:53-74 | the indicator pass yields AvgVal as the AvgLen-bar mean of closes, the variance recurrence, SDmult and the displaced channel |
| DisplacedBollS.ChannelOrdered | quant/latestVer/strategy/DisplacedBoll_S.py:68-72 | with SDev ≥ 0, wherever the channel is defined its bottom is not above its top |
| DisplacedBollS.GenerateSignals | quant/latestVer/strategy/DisplacedBoll_S.py:76-107 | with no length check, the loop from bar 1 returns the short state machine's column with the forced cover |
| DisplacedBollS.StepTransition | quant/latestVer/strategy/DisplacedBoll_S.py:85-101 | one step keeps the book flat or short and writes exactly the code of its position change |
| DisplacedBollS.StateShape | quant/latestVer/strategy/DisplacedBoll_S.py:81-101 | between bars the book is flat or short with a non-negative bar count |
| DisplacedBollS.EntryExactly | quant/latestVer/strategy/DisplacedBoll_S.py:85-91 | −1 is written exactly when flat and low[i] ≤ DispBottom[i-1]; there is no volume gate |
| DisplacedBollS.ExitExactly | quant/latestVer/strategy/DisplacedBoll_S.py:93-101 | 0 is written exactly when short and high[i] ≥ DispTop[i-1]; the `bars_since_entry > 0` guard never blocks it |
| DisplacedBollS.ExitOnBarAfterEntry | quant/latestVer/strategy/DisplacedBoll_S.py:94-99 | a trade can be covered on the very next bar after its entry |
| DisplacedBollS.CallIsTransition | quant/latestVer/strategy/DisplacedBoll_S.py:84-101 | every bar's code is exactly the code of the position change across it |
| DisplacedBollS.NetFlat | quant/latestVer/strategy/DisplacedBoll_S.py:104-105 | unless an entry lands on the last bar, entries and covers alternate and the column ends flat |
| DisplacedBollS.LastBarEntryOverwritten | quant/latestVer/strategy/DisplacedBoll_S.py:89-105 | an entry on the last bar is overwritten by the forced cover (lines 89, 104-105) |
| Common.RollingSum | quant/latestVer/strategy/Reference_Deviation_System_S.py:59-62 | rolling(w).sum() is NaN for the first w − 1 rows and wherever the window holds a NaN, otherwise the window's sum (lines 59, 62) |
| ReferenceDeviationS.AbsColumn | quant/latestVer/strategy/Reference_Deviation_System_S.py:62 | abs() of a column, row by row, NaN staying NaN |
| ReferenceDeviationS.SumWithinAbsSum | quant/latestVer/strategy/Reference_Deviation_System_S.py:59-62 | \|NDV\| ≤ TDV over the same window, and both are NaN together |
| ReferenceDeviationS.DRD | quant/latestVer/strategy/Reference_Deviation_System_S.py:56 | DRD[i] = close[i] − RMA[i], NaN where RMA is |
| ReferenceDeviationS.CalculateIndicators | quant/latestVer/strategy/Reference_Deviation_System_S.py:48-67 | NDV and TDV are the RMALen-window sums of DRD and \|DRD\|, and RDV is computed from them |
| ReferenceDeviationS.RatioBounded | quant/latestVer/strategy/Reference_Deviation_System_S.py:65 | 100·n/t lies in [−100, 100] when \|n\| ≤ t and t > 0 |
| ReferenceDeviationS.RDVBounded | quant/latestVer/strategy/Reference_Deviation_System_S.py:59-65 | RDV lies in [−100, 100], and is 0 until the RMALen-bar window of DRD is free of NaN |
| ReferenceDeviationS.GenerateSignals | quant/latestVer/strategy/Reference_Deviation_System_S.py:69-112 | raises ValueError when len < RMALen, otherwise returns the short state machine's column with the forced cover |
| ReferenceDeviationS.PositionShape | quant/latestVer/strategy/Reference_Deviation_System_S.py:83-106 | the book is always flat or short |
| ReferenceDeviationS.EntryExactly | quant/latestVer/strategy/Reference_Deviation_System_S.py:90-95 | −1 is written exactly when flat, rdv[i-1] < ETShort and vol[i] > 0 |
| ReferenceDeviationS.ExitExactly | quant/latestVer/strategy/Reference_Deviation_System_S.py:101-106 | 0 is written exactly when short, rdv[i-1] > 0 and vol[i] > 0 |
| ReferenceDeviationS.ThresholdsApart | quant/latestVer/strategy/Reference_Deviation_System_S.py:40-102 | with ETShort ≤ 0, entries read a negative RDV and covers a positive one, so no value satisfies both (lines 40, 91, 102) |
| ReferenceDeviationS.CallIsTransition | quant/latestVer/strategy/Reference_Deviation_System_S.py:85-106 | every bar's code is exactly the code of the position change across it |
| ReferenceDeviationS.NetFlat | quant/latestVer/strategy/Reference_Deviation_System_S.py:109-110 | unless an entry lands on the last bar, entries and covers alternate and the column ends flat |
| ReferenceDeviationS.LastBarEntryOverwritten | quant/latestVer/strategy/Reference_Deviation_System_S.py:94-110 | an entry on the last bar is overwritten by the forced cover (lines 94, 109-110) |
| GoingInStyleL.Condition1 | quant/backup/strategy/Going_in_Style_L_strategy.py:52 | Condition1 holds on a bar exactly when its high is above `highest`, the Highest of the Length highs before it (NaN comparing false); the frame's Condition1 column is this column (`Valid`) |
| GoingInStyleL.CalculateIndicators | quant/backup/strategy/Going_in_Style_L_strategy.py:44-57 | the frame keeps the bars and the ATR, highest and TrueRange inputs, and its Condition1 and StopATR columns are computed from them as the source computes them |
| GoingInStyleL.EntryOnNewHigh | quant/backup/strategy/Going_in_Style_L_strategy.py:52-92 | 1 is written exactly when flat, the previous bar's high is above the highest of the Length highs before it, this bar's high reaches the previous close plus Trigger·ATR, and the bar has volume (lines 52, 82-92) |
| GoingInStyleL.EntryStopFromTrueRange | quant/backup/strategy/Going_in_Style_L_strategy.py:55-95 | the stop set on an entry bar is its low less FirstBarMultp times the mean true range of that bar and the two before it, and NaN on bar 1 or when one of those is NaN (lines 55, 95) |
| GoingInStyleL.GenerateSignals | quant/backup/strategy/Going_in_Style_L_strategy.py:59-133 | an empty frame below Length bars, otherwise the loop's column with the chained-assignment forced close |
| GoingInStyleL.SignalLoop | quant/backup/strategy/Going_in_Style_L_strategy.py:68-131 | the bar loop and the chained forced close yield the state machine's column, closed on the last bar exactly when the final position is long and the assignment writes |
| GoingInStyleL.StepTransition | quant/backup/strategy/Going_in_Style_L_strategy.py:76-127 | one bar keeps the book flat or long with af bounded, and its code is exactly the position change |
| GoingInStyleL.StateShape | quant/backup/strategy/Going_in_Style_L_strategy.py:68-127 | between bars the book is flat with nothing recorded and af at Acceleration, or long with a peak; af never exceeds max(Acceleration, 0.2) |
| GoingInStyleL.EntryExactly | quant/backup/strategy/Going_in_Style_L_strategy.py:82-98 | 1 is written exactly when flat and the entry condition holds, and the entry records the first-bar stop, the bar's high as peak and af = Acceleration |
| GoingInStyleL.EntryConditionSkipsStop | quant/backup/strategy/Going_in_Style_L_strategy.py:82-101 | while long, a bar meeting the entry condition only counts the bar: the stop is neither trailed nor checked (lines 82-87, 101) |
| GoingInStyleL.ExitExactly | quant/backup/strategy/Going_in_Style_L_strategy.py:108-127 | 0 is written exactly when long, the entry condition fails, the low reaches the previous bar's stop and the bar has volume; the exit resets the state |
| GoingInStyleL.TrailBetween | quant/backup/strategy/Going_in_Style_L_strategy.py:115 | with af in [0, 1] the trailed stop lies between the old stop and the peak |
| GoingInStyleL.StepKeepsStopBelowPeak | quant/backup/strategy/Going_in_Style_L_strategy.py:108-115 | one bar keeps the stop at or below the peak and never lowers the stop of an open trade |
| GoingInStyleL.StopTrailsPeak | quant/backup/strategy/Going_in_Style_L_strategy.py:95-115 | on sensible inputs the stop of an open trade never exceeds the highest high since entry and never falls from bar to bar (lines 95-96, 108-115) |
| GoingInStyleL.Positions | quant/backup/strategy/Going_in_Style_L_strategy.py:68-121 | the position held before each bar, read off the loop's state (lines 68, 91, 121) |
| GoingInStyleL.CallIsTransition | quant/backup/strategy/Going_in_Style_L_strategy.py:76-127 | every bar's code is exactly the change of position across it |
| GoingInStyleL.LoopFollowsPositions | quant/backup/strategy/Going_in_Style_L_strategy.py:76-127 | the loop's column follows the position sequence throughout |
| GoingInStyleL.SignalsOfLongEnough | quant/backup/strategy/Going_in_Style_L_strategy.py:62-131 | with at least Length bars the result is the loop's column, closed on the last bar exactly when the final position is long and the chained assignment writes (lines 62-63, 130-131) |
| GoingInStyleL.NetFlat | quant/backup/strategy/Going_in_Style_L_strategy.py:130-131 | when the forced close writes and no entry lands on the last bar, entries and exits alternate and their number is even: the column ends flat |
| GoingInStyleL.ForcedCloseLost | quant/backup/strategy/Going_in_Style_L_strategy.py:130-131 | when the chained assignment writes into a copy, a trade still open at the end stays open: the codes alternate and their number is odd |
| GoingInStyleL.LastBarEntryOverwritten | quant/backup/strategy/Going_in_Style_L_strategy.py:90-131 | when the forced close writes, an entry on the last bar is replaced by the close (lines 90, 130-131) |
| GhostTraderS.RsiThroughStep | quant/backup/strategy/GhostTrader_S_strategy.py:60-78 | one pass of the RSI loop writes exactly bar i's four values into the columns and changes nothing else |
| GhostTraderS.RsiAverages | quant/backup/strategy/GhostTrader_S_strategy.py:61-70 | the two averages are the seed (net move over Length, mean absolute change) at bar Length and a Wilder step with sf = 1/Length after it |
| GhostTraderS.RsiRow | quant/backup/strategy/GhostTrader_S_strategy.py:61-78 | one row: the averages, their ratio (0 where the total is 0) and RSI = 50·(ratio + 1) |
| GhostTraderS.RsiLoop | quant/backup/strategy/GhostTrader_S_strategy.py:55-78 | the loop leaves the four RSI columns NaN before bar Length and the recurrence's values from there on, reading back the row it wrote before |
| GhostTraderS.CalculateIndicators | quant/backup/strategy/GhostTrader_S_strategy.py:47-84 | writes the two averages, the four RSI columns and the two Donchian bands into the caller's frame and nothing else |
| GhostTraderS.NetMoveWithinPath | quant/backup/strategy/GhostTrader_S_strategy.py:62-63 | the net move since bar 0 is at most the summed absolute changes, so the seed keeps \|NetChgAvg\| ≤ TotChgAvg |
| GhostTraderS.WilderKeepsBound | quant/backup/strategy/GhostTrader_S_strategy.py:65-70 | a Wilder step with sf in [0, 1] keeps \|net\| ≤ tot |
| GhostTraderS.NetWithinTotal | quant/backup/strategy/GhostTrader_S_strategy.py:60-70 | \|NetChgAvg\| ≤ TotChgAvg on every bar the loop writes |
| GhostTraderS.RatioBounded | quant/backup/strategy/GhostTrader_S_strategy.py:73-78 | with \|net\| ≤ tot the ratio lies in [−1, 1] and the RSI in [0, 100] |
| GhostTraderS.RsiBounded | quant/backup/strategy/GhostTrader_S_strategy.py:73-78 | the RSI lies in [0, 100], and is exactly 50 where the total average is 0 |
| GhostTraderS.RsiColumnBounded | quant/backup/strategy/GhostTrader_S_strategy.py:55-78 | the RSIValue column is NaN before bar Length and within [0, 100] from there on |
| GhostTraderS.GenerateSignals | quant/backup/strategy/GhostTrader_S_strategy.py:86-138 | an empty frame below max(FastLength, SlowLength, 20) bars, otherwise the loop's column with the forced cover |
| GhostTraderS.StateShape | quant/backup/strategy/GhostTrader_S_strategy.py:94-132 | the book is flat or short, and is short exactly when it holds an entry price |
| GhostTraderS.EntryExactly | quant/backup/strategy/GhostTrader_S_strategy.py:100-130 | −1 is written exactly when the book is flat, the setup holds and the last round trip lost money (lines 100, 119-130) |
| GhostTraderS.SilentEntry | quant/backup/strategy/GhostTrader_S_strategy.py:131-132 | with no recorded loss the same setup opens a simulated short: nothing is written, yet the book turns short |
| GhostTraderS.ExitExactly | quant/backup/strategy/GhostTrader_S_strategy.py:100-111 | 0 is written exactly when the book, real or simulated, is short and the high reaches the previous band; the profit becomes entry price less the exit fill (lines 100, 103-111) |
| GhostTraderS.EntryPriceBelowPreviousLow | quant/backup/strategy/GhostTrader_S_strategy.py:125 | the entry fill is at or below both the previous low and the open |
| GhostTraderS.ProfitChangesOnlyAtExits | quant/backup/strategy/GhostTrader_S_strategy.py:108-132 | the recorded profit changes only on bars that write an exit (lines 108, 125-132) |
| GhostTraderS.NoLossBeforeFirstExit | quant/backup/strategy/GhostTrader_S_strategy.py:97-128 | before the first exit the profit is still 0, so no real entry has been written (lines 97, 128) |
| GhostTraderS.ForcedCloseWritesExit | quant/backup/strategy/GhostTrader_S_strategy.py:135-136 | a short still open at the end, real or simulated, gets a 0 on the last bar and the rest of the column is untouched |
| GhostTraderS.LastBarEntryOverwritten | quant/backup/strategy/GhostTrader_S_strategy.py:129-136 | a real entry on the last bar is replaced by the forced cover (lines 129, 135-136) |
| FourSetMAL.ForceCloseRows | quant/backup/strategy/FourSetofMACrossoverSys_L_strategy.py:115-116 | a long still open turns the last row into a sale at the last close; otherwise the rows are unchanged |
| FourSetMAL.GenerateSignals | quant/backup/strategy/FourSetofMACrossoverSys_L_strategy.py:62-118 | raises ValueError below max(LESlow, SESlow) bars, otherwise returns the loop's rows from bar 100 on with the forced close |
| FourSetMAL.PositionShape | quant/backup/strategy/FourSetofMACrossoverSys_L_strategy.py:76-112 | the book is always flat or long (lines 76, 96, 103, 112) |
| FourSetMAL.ShortFrameIsBlank | quant/backup/strategy/FourSetofMACrossoverSys_L_strategy.py:69-78 | with at most 100 bars the loop never runs and every row keeps its initial [0, 1, NaN, NaN, 0] |
| FourSetMAL.NothingBeforeFirstBar | quant/backup/strategy/FourSetofMACrossoverSys_L_strategy.py:78-116 | no row before bar 100 carries an event, not even the forced close (lines 78, 115-116) |
| FourSetMAL.EntryExactly | quant/backup/strategy/FourSetofMACrossoverSys_L_strategy.py:88-96 | a buy row is written exactly when flat, both long pairs were bullish on the previous bar, the high reaches the previous high and the bar has volume; it fills at max(open, previous high) |
| FourSetMAL.ExitExactly | quant/backup/strategy/FourSetofMACrossoverSys_L_strategy.py:99-112 | a sell row is written exactly when long, the bar has volume and one exit holds; the fast-pair exit has priority and fills at the open, the breakdown exit at min(open, previous low) |
| FourSetMAL.EventsNeedVolume | quant/backup/strategy/FourSetofMACrossoverSys_L_strategy.py:92-99 | every event row is a buy or a sell, and none lands on a bar without volume (lines 92, 99) |
| FourSetMAL.Positions | quant/backup/strategy/FourSetofMACrossoverSys_L_strategy.py:76-112 | the position held before each bar (lines 76, 96, 103, 112) |
| FourSetMAL.CallIsTransition | quant/backup/strategy/FourSetofMACrossoverSys_L_strategy.py:88-112 | each bar's signal is exactly the code of the position change across it |
| FourSetMAL.LoopFollowsPositions | quant/backup/strategy/FourSetofMACrossoverSys_L_strategy.py:78-112 | the signal column follows the position sequence throughout |
| FourSetMAL.ForceCloseRowsCodes | quant/backup/strategy/FourSetofMACrossoverSys_L_strategy.py:115-116 | on the signal column the row-level forced close is the generic forced close with code −1 |
| FourSetMAL.NetFlat | quant/backup/strategy/FourSetofMACrossoverSys_L_strategy.py:115-116 | unless a buy lands on the last bar, buys and sells alternate and the column ends flat |
| FourSetMAL.LastBarEntryOverwritten | quant/backup/strategy/FourSetofMACrossoverSys_L_strategy.py:95-116 | a buy on the last bar is replaced by the forced sale at the last close (lines 95, 115-116) |
| VwmS.BearMarks | quant/backup/strategy/VWM_S_strategy.py:71 | 0 on bear-setup bars and NaN on every other bar |
| VwmS.SSetupColumn | quant/backup/strategy/VWM_S_strategy.py:71-74 | the forward-filled marks plus one, remaining NaN filled with 0 |
| VwmS.SEPriceColumn | quant/backup/strategy/VWM_S_strategy.py:72 | the close on bear-setup bars, NaN elsewhere (never forward-filled) |
| VwmS.MarksFilledAfterFirstSetup | quant/backup/strategy/VWM_S_strategy.py:71-73 | after the forward fill a bar holds 0 exactly when some bar up to it was a bear setup, and NaN otherwise |
| VwmS.SSetupIsSeenFlag | quant/backup/strategy/VWM_S_strategy.py:71-74 | the setup counter never counts: it is 0 before the first bear setup and 1 from that bar on, so it never exceeds 1 |
| VwmS.Prev | quant/backup/strategy/VWM_S_strategy.py:88-116 | the position read as i − 1 is always in range: a NumPy array read at −1 gives its last element (lines 88-94, 105-106, 116) |
| VwmS.GenerateSignals | quant/backup/strategy/VWM_S_strategy.py:78-128 | raises ValueError below AvgLen bars, otherwise returns the loop's column from bar AvgLen with the forced cover |
| VwmS.StateShape | quant/backup/strategy/VWM_S_strategy.py:96-122 | the book is flat or short with a non-negative bar count |
| VwmS.EntryExactly | quant/backup/strategy/VWM_S_strategy.py:104-112 | −1 is written exactly when flat and the low reaches SEPrice less ATRPcnt·AATR of the previous bar, SSetup[i−1] ≤ SetupLen, SSetup[i] ≥ 1 and the bar has volume |
| VwmS.EntryNeedsBearSetup | quant/backup/strategy/VWM_S_strategy.py:71-106 | on derived setup columns an entry needs a bear setup on the previous bar, SSetup[i] ≥ 1 holds exactly when a bear setup has been seen, and the SetupLen test always passes for SetupLen ≥ 1 (lines 71-74, 105-106) |
| VwmS.ExitExactly | quant/backup/strategy/VWM_S_strategy.py:100-122 | 0 is written exactly when short, the bull setup held on the previous bar and the bar has volume: the position_bars test always passes (lines 100-101, 115-122) |
| VwmS.CoverOnBarAfterEntry | quant/backup/strategy/VWM_S_strategy.py:100-118 | a short can be covered on the very next bar (lines 100-101, 118) |
| VwmS.Positions | quant/backup/strategy/VWM_S_strategy.py:96-121 | the position held before each bar (lines 96, 111, 121) |
| VwmS.CallIsTransition | quant/backup/strategy/VWM_S_strategy.py:99-122 | each bar's code is exactly the code of the position change across it |
| VwmS.LoopFollowsPositions | quant/backup/strategy/VWM_S_strategy.py:99-122 | the position column follows the position sequence throughout |
| VwmS.NetFlat | quant/backup/strategy/VWM_S_strategy.py:125-126 | unless an entry lands on the last bar, entries and covers alternate and their number is even: the column ends flat |
| VwmS.LastBarEntryOverwritten | quant/backup/strategy/VWM_S_strategy.py:110-126 | an entry on the last bar is replaced by the forced cover (lines 110, 125-126) |
| Chunker.MaxOf3 | crawler/ForexFactory/vectorization.py:115-119 | max of three boundary positions is one of them and at least each of them |
| Chunker.Backoff | crawler/ForexFactory/vectorization.py:132-133 | the back-off stops at the first whitespace at or before end, or at the lower bound, and passes only non-whitespace |
| Chunker.CutEnd | crawler/ForexFactory/vectorization.py:103-136 | a window ends past its start, holds at most max_length characters and, when it ends early, ends past its middle and more than overlap characters past its start |
| Chunker.CutterAdvances | crawler/ForexFactory/vectorization.py:102-139 | from every start the cut moves forward within max_length, so the window loop always advances |
| Chunker.SpansWith | crawler/ForexFactory/vectorization.py:102-139 | every window lies inside the text after the first start and holds at most max_length characters |
| Chunker.Slices | crawler/ForexFactory/vectorization.py:138 | each chunk is the text between its window's start and end |
| Chunker.SpansEnds | crawler/ForexFactory/vectorization.py:100-139 | the windows begin at the first start and the last one reaches the end of the text (lines 100-102, 139) |
| Chunker.SpansAreCuts | crawler/ForexFactory/vectorization.py:103-136 | every window ends where the cut rule puts the end of a window from its start |
| Chunker.SpansLast | crawler/ForexFactory/vectorization.py:139 | a window that reaches the end of the text is the last one |
| Chunker.SpansOverlap | crawler/ForexFactory/vectorization.py:139 | each window but the first begins overlap characters before the previous one ended, which is short of the end |
| Chunker.Fresh | crawler/ForexFactory/vectorization.py:139 | a chunk is the overlap it repeats followed by its fresh part |
| Chunker.StitchPrefix | crawler/ForexFactory/vectorization.py:138-139 | stitching the slices of chained windows gives back the text they cover |
| Chunker.SpansChained | crawler/ForexFactory/vectorization.py:102-139 | the windows the cut rule produces are chained |
| Chunker.SemanticRoundTrip | crawler/ForexFactory/vectorization.py:94-141 | stitching the chunks of _split_text_by_semantic, dropping each later chunk's overlap, gives back the text |
| Chunker.SemanticChunksFit | crawler/ForexFactory/vectorization.py:96-138 | every chunk holds at most max_length characters, and there is more than one exactly when the text is longer than max_length (lines 96-97, 103, 138) |
| Chunker.CutKinds | crawler/ForexFactory/vectorization.py:106-136 | an early window ends past its middle at a post marker, after a blank line, at a list item, after a sentence end, at whitespace, or at the hard cut |
| Chunker.EarlyCut | crawler/ForexFactory/vectorization.py:106-136 | for a window that ends before the text, the post-marker and blank-line stages then the later ones give the cut rule's end |
| Chunker.LateCut | crawler/ForexFactory/vectorization.py:115-136 | past the first two stages, the list-item stage then the later ones give the cut rule's end |
| Chunker.SentenceOrSpaceCut | crawler/ForexFactory/vectorization.py:123-136 | past the list-item stage, the sentence-end stage then the whitespace back-off give the cut rule's end |
| Chunker.PostMarkerWins | crawler/ForexFactory/vectorization.py:107-109 | a post marker past the middle of the window always wins: the window ends at the last one |
| Chunker.ChooseEnd | crawler/ForexFactory/vectorization.py:103-136 | the cut the source computes, in its order of preference and with its back-off loop, is the cut rule's |
| Chunker.WindowSpans | crawler/ForexFactory/vectorization.py:100-139 | the windows start at 0, end at the text's end, end where the cut rule says and overlap by overlap characters |
| Chunker.SplitTextBySemantic | crawler/ForexFactory/vectorization.py:94-141 | returns the whole text when it fits and the windows' slices otherwise |
| Chunker.WindowLoop | crawler/ForexFactory/vectorization.py:99-141 | the window loop appends one slice per window, each next start overlap before the last end |
| Chunker.MarkerEnd | crawler/ForexFactory/vectorization.py:77 | the marker `* [#<digits>]` ends after its start and inside the text |
| Chunker.NextMarker | crawler/ForexFactory/vectorization.py:77 | the first post marker at or after a position, or −1 when there is none |
| Chunker.PostsFrom | crawler/ForexFactory/vectorization.py:77 | findall yields at least one post from a marker on |
| Chunker.PostsFromCover | crawler/ForexFactory/vectorization.py:77 | the posts from a marker on, put back together, are the text from that marker on |
| Chunker.PostsFromMarked | crawler/ForexFactory/vectorization.py:77 | every post begins with its marker |
| Chunker.PostsCover | crawler/ForexFactory/vectorization.py:77 | the posts of a text with a marker cover the text from its first marker on, each beginning with a marker |
| Chunker.SplitIntoChunks | crawler/ForexFactory/vectorization.py:74-92 | with more than two posts the chunks of each post in turn, a short post whole; otherwise the semantic chunks of the whole text |
| Chunker.PostChunksFit | crawler/ForexFactory/vectorization.py:81-88 | no chunk of any post is longer than max_length |
| Chunker.ChunksFit | crawler/ForexFactory/vectorization.py:74-92 | no chunk of split_into_chunks is longer than max_length |
| Chunker.PostsRoundTrip | crawler/ForexFactory/vectorization.py:79-89 | when split post by post, each post's chunks stitch back to the post and the posts to the text from its first marker on; text before the first marker is dropped |
| Chunker.Records | crawler/ForexFactory/vectorization.py:60-67 | one record per chunk |
| Chunker.RecordsDistinct | crawler/ForexFactory/vectorization.py:60-67 | the records keep the chunks in order with chunk_index i and the file as source, and their ids `<collection>_chunk_<i>` are pairwise distinct |
| ThreadsDetail.RStrip | crawler/ForexFactory/get_threads_detail.py:145 | rstrip('/') removes exactly the trailing run of '/': a prefix of the URL, not ending in '/', followed only by '/' |
| ThreadsDetail.LastPart | crawler/ForexFactory/get_threads_detail.py:145-146 | split('/')[-1] is the suffix after the last '/', free of '/', or the whole string when it has none |
| ThreadsDetail.SearchGroup | crawler/ForexFactory/get_threads_detail.py:149-152 | re.search(r'\d+-(.+)$') yields the group of the leftmost match, and nothing exactly when no position matches |
| ThreadsDetail.ToUpper | crawler/ForexFactory/get_threads_detail.py:154 | upper-casing keeps a character cased or uncased, leaves no lower-case letter and leaves uncased characters alone |
| ThreadsDetail.ToLower | crawler/ForexFactory/get_threads_detail.py:154 | lower-casing keeps a character cased or uncased, leaves no upper-case letter and leaves uncased characters alone |
| ThreadsDetail.TitleFrom | crawler/ForexFactory/get_threads_detail.py:154 | str.title() keeps the length |
| ThreadsDetail.TitleFromAt | crawler/ForexFactory/get_threads_detail.py:154 | each character of str.title() is the upper case of a character that starts a word and the lower case of any other |
| ThreadsDetail.TitleIdempotent | crawler/ForexFactory/get_threads_detail.py:154 | title-casing twice is title-casing once |
| ThreadsDetail.Dehyphen | crawler/ForexFactory/get_threads_detail.py:154 | replace('-', ' ') turns exactly the hyphens into spaces |
| ThreadsDetail.ExtractTitleCases | crawler/ForexFactory/get_threads_detail.py:134-158 | the title is the last path segment unchanged when it does not hold `<digits>-<rest>`, and otherwise the group title-cased with no hyphen left |
| ThreadsDetail.TitleKeepsHyphenFree | crawler/ForexFactory/get_threads_detail.py:154 | title-casing a string without a hyphen leaves none |
| ThreadsDetail.DigitValue | crawler/ForexFactory/get_threads_detail.py:174 | a decimal digit's value is below 10 |
| ThreadsDetail.DecimalValueOfNatStr | crawler/ForexFactory/get_threads_detail.py:174 | int() of the decimal rendering of a number is the number |
| ThreadsDetail.MaxPageDefault | crawler/ForexFactory/get_threads_detail.py:171-177 | without a "Last Page" link the thread has one page |
| ThreadsDetail.PageLinkIs | crawler/ForexFactory/get_threads_detail.py:171 | the pattern matches at a `?page=` whose digits are followed, before any '"', by `"Last Page"`, and yields those digits' value |
| ThreadsDetail.PageNumberIs | crawler/ForexFactory/get_threads_detail.py:171 | the `(\d+)[^"]*"Last Page"` part of the pattern matches the whole digit run at a position exactly when the first '"' after it opens `"Last Page"`, and yields that run's value |
| ThreadsDetail.MaxPageAt | crawler/ForexFactory/get_threads_detail.py:171-174 | the leftmost matching link decides the page count |
| ThreadsDetail.MaxPageRoundTrip | crawler/ForexFactory/get_threads_detail.py:160-177 | a page whose first `?page=` link carries n and then `"Last Page"` before any '"' has n pages |
| ThreadsDetail.ExtractPattern | crawler/ForexFactory/get_threads_detail.py:35-37 | 'Unknown' when the pattern does not match, otherwise the group stripped of surrounding whitespace |
| ThreadsDetail.LineEndIs | crawler/ForexFactory/get_threads_detail.py:47-51 | the line reader stops at the first newline |
| ThreadsDetail.LineSplit | crawler/ForexFactory/get_threads_detail.py:47-51 | a one-line field followed by a newline is read back whole |
| ThreadsDetail.FormatPostRoundTrip | crawler/ForexFactory/get_threads_detail.py:47-51 | a post whose number, author and time are single lines is read back exactly from its formatted text |
| ThreadsDetail.FilterPosts | crawler/ForexFactory/get_threads_detail.py:18-33 | the loop keeps the formatted posts with content, in order, or the whole page when none has content |
| ThreadsDetail.CleanedPosts | crawler/ForexFactory/get_threads_detail.py:22-31 | at most one entry per post, each the formatted text of a post with content, and none exactly when no post has content |
| ThreadsDetail.FilterContentFallback | crawler/ForexFactory/get_threads_detail.py:33 | the result is never empty: the whole page when no post has content, the cleaned posts otherwise |
| ThreadsDetail.BaseUrl | crawler/ForexFactory/get_threads_detail.py:193 | split('?')[0] is the URL up to its first '?', free of '?' |
| ThreadsDetail.PageUrlsDistinct | crawler/ForexFactory/get_threads_detail.py:247-283 | distinct page numbers give distinct page addresses (lines 247, 283) |
| ThreadsDetail.Interval | crawler/ForexFactory/get_threads_detail.py:282 | range(lo, hi) holds hi − lo numbers, lo, lo + 1, … |
| ThreadsDetail.BatchesCover | crawler/ForexFactory/get_threads_detail.py:273-283 | the batches are non-empty, hold at most max_concurrent pages each, and together are the later pages in order |
| ThreadsDetail.LaterPagesBounds | crawler/ForexFactory/get_threads_detail.py:256-273 | the later pages are fewer than max_pages, follow the start page one by one and never pass the last page |
| ThreadsDetail.KeptShape | crawler/ForexFactory/get_threads_detail.py:294-313 | every kept page was fetched with the content kept, and no kept content equals the one kept before it |
| ThreadsDetail.KeptAscending | crawler/ForexFactory/get_threads_detail.py:294-317 | pages fetched in increasing order are kept in increasing order (lines 294-313, 317) |
| ThreadsDetail.KeptInPages | crawler/ForexFactory/get_threads_detail.py:282-306 | a kept page is one of the pages requested |
| ThreadsDetail.KeptStep | crawler/ForexFactory/get_threads_detail.py:296-307 | one page: a failed fetch is skipped, a repeat stops the crawl, other content is kept and becomes the last content |
| ThreadsDetail.CrawlPage | crawler/ForexFactory/get_threads_detail.py:294-310 | one awaited page: on a repeat the pages kept so far are final; otherwise they together with the rest of the batch, read from the new last content, are what the batch keeps |
| ThreadsDetail.ItemsShape | crawler/ForexFactory/get_threads_detail.py:247-318 | nothing is kept exactly when the start page fails or the page plan raises; otherwise the start page comes first, pages go up so the sort keeps their order, never pass the last page, hold what was fetched and never repeat the previous content |
| ThreadsDetail.DetailHeading | crawler/ForexFactory/get_threads_detail.py:321-323 | the document is empty exactly when no page was kept, and otherwise opens with the title heading |
| ThreadsDetail.GetThreadsDetail | crawler/ForexFactory/get_threads_detail.py:179-330 | the combined document of the crawl: the title heading and the kept pages joined by rules |
| ThreadsDetail.CrawlBatches | crawler/ForexFactory/get_threads_detail.py:273-313 | the batch loop and the page loop keep the start page and then the later pages up to the first repeat, and the batches visited are a prefix of the batch plan `Batches` |
| Text.Seconds | crawler/ForexFactory/get_threads_link.py:59 | thread_links.values(): the second components of the (title, link) pairs, in insertion order |
| ThreadsLink.KeyIndex | crawler/ForexFactory/get_threads_link.py:60 | the position of a title among the dict's keys, or −1 exactly when it is not a key |
| ThreadsLink.PutWellFormed | crawler/ForexFactory/get_threads_link.py:59-60 | storing a new thread link under a non-empty title keeps titles and links distinct and grows the dict by at most one |
| ThreadsLink.AcceptAt | crawler/ForexFactory/get_threads_link.py:38-61 | below forty accepted links, the loop from anchor i is one step on anchor i followed by the loop from anchor i + 1 |
| ThreadsLink.StepShape | crawler/ForexFactory/get_threads_link.py:42-61 | one anchor keeps the links well formed and drawn from the page, and the dict never outgrows the count |
| ThreadsLink.AcceptShape | crawler/ForexFactory/get_threads_link.py:38-61 | the whole loop keeps the links well formed, drawn from the page and at most forty |
| ThreadsLink.ThreadLinksShape | crawler/ForexFactory/get_threads_link.py:34-63 | at most forty links; titles are non-empty stripped anchor texts, no two equal; every link is a completed thread address, not a post address, of an anchor with that title; no link repeats |
| ThreadsLink.SkippedAnchor | crawler/ForexFactory/get_threads_link.py:46-56 | an anchor without text, or whose address is not a thread, changes nothing (lines 46-47, 54-56) |
| ThreadsLink.RepeatedTitle | crawler/ForexFactory/get_threads_link.py:59-61 | two anchors with one title and different thread addresses leave one entry holding the second address, while both count towards the forty |
| ThreadsLink.VisitAnchor | crawler/ForexFactory/get_threads_link.py:42-61 | the loop body for one anchor is the filter step |
| ThreadsLink.ExtractThreadLinks | crawler/ForexFactory/get_threads_link.py:17-63 | an empty dict when the fetch failed, otherwise the links the filter loop accepts |
| ThreadsLink.MapRangeIndex | crawler/ForexFactory/get_threads_link.py:81-83 | one element per number of the range, in order |
| ThreadsLink.PageUrlsIndex | crawler/ForexFactory/get_threads_link.py:80-83 | one forum address per page from start_page to end_page inclusive, in page order |
| ThreadsLink.MapRangeDistinct | crawler/ForexFactory/get_threads_link.py:81-83 | an injective map over the range repeats nothing |
| ThreadsLink.PageUrlsDistinct | crawler/ForexFactory/get_threads_link.py:80-83 | no two pages of the range share an address |
| ThreadsLink.ForumUrlsDistinct | crawler/ForexFactory/get_threads_link.py:82 | distinct page numbers give distinct forum addresses |
| ThreadsLink.SessionIdsDistinct | crawler/ForexFactory/get_threads_link.py:92 | no two fetches of a run share a session id |
| ThreadsLink.BuildUrls | crawler/ForexFactory/get_threads_link.py:80-83 | the URL loop builds the page addresses of the range |
| ThreadsLink.GatheredMembers | crawler/ForexFactory/get_threads_link.py:86-110 | a (title, link) pair is gathered exactly when some page of the range, fetched under its own session, yields it |
| ThreadsLink.GatheredLength | crawler/ForexFactory/get_threads_link.py:36-110 | each page adds at most forty pairs (lines 36, 106-110) |
| ThreadsLink.GatheredThreadLinks | crawler/ForexFactory/get_threads_link.py:54-109 | every gathered pair is a thread address under a non-empty title (lines 54-56, 109) |
| ThreadsLink.ThreadsLinkRunShape | crawler/ForexFactory/get_threads_link.py:78-110 | the run raises exactly when max_concurrent is 0, yields nothing for a negative batch size or an empty range, and otherwise at most forty thread links per page |
| ThreadsLink.GetThreadsLink | crawler/ForexFactory/get_threads_link.py:7-110 | the pairs of the whole run: the URL list, then batch after batch, each page under session i + j (lines 7, 66, 78-110) |
| ThreadsLink.RunBatches | crawler/ForexFactory/get_threads_link.py:86-110 | the batch loop gathers every page's pairs, the n-th address of the run under session n |
| ThreadsLink.RunBatch | crawler/ForexFactory/get_threads_link.py:87-110 | one batch fetched and merged extends the gathered pairs from the pages before it to the pages through its last address |
| ThreadsLink.FetchBatch | crawler/ForexFactory/get_threads_link.py:87-103 | one result per address of the batch, the j-th fetched under session offset + j |
| ThreadsLink.MergeBatch | crawler/ForexFactory/get_threads_link.py:106-110 | each page's pairs, when it has any, are appended in batch order |
| CompanyStay.Split | PFM-ExecRel/company_stay/company_stay.py:23 | str.split always yields at least one piece |
| CompanyStay.SplitJoin | PFM-ExecRel/company_stay/company_stay.py:23 | joining the pieces of split with the separator gives the string back |
| CompanyStay.SplitPiecesFree | PFM-ExecRel/company_stay/company_stay.py:23 | no piece of split contains the separator |
| CompanyStay.Braced | PFM-ExecRel/company_stay/company_stay.py:30-33 | a restored segment starts with '{' and ends with '}', and a segment that already does is unchanged |
| CompanyStay.RestoreBraces | PFM-ExecRel/company_stay/company_stay.py:27-31 | the loop's brace repair yields the restored segment: a leading '{' and a trailing '}' are added only where missing |
| CompanyStay.Segments | PFM-ExecRel/company_stay/company_stay.py:23-33 | one restored segment per piece of the split at "}, {" (lines 23, 28-33) |
| CompanyStay.QuotedField | PFM-ExecRel/company_stay/company_stay.py:49-75 | a `([^']+)` field, when found, is non-empty and free of quotes (lines 49-50, 60-61, 74-75) |
| CompanyStay.LazyEnd | PFM-ExecRel/company_stay/company_stay.py:76-77 | the lazy `(.*?)` ends at the first closing `'"` with no newline before it, or fails |
| CompanyStay.LazyField | PFM-ExecRel/company_stay/company_stay.py:76-77 | a `(.*?)` field, when found, holds no newline |
| CompanyStay.QuotedFieldRoundTrip | PFM-ExecRel/company_stay/company_stay.py:49-75 | a quote-free non-empty value written as a field at the front of a text is read back (lines 49-50, 74-75) |
| CompanyStay.LazyFieldRoundTrip | PFM-ExecRel/company_stay/company_stay.py:76-77 | a value without newline or quote written as a field at the front of a text is read back |
| CompanyStay.BraceFreeRun | PFM-ExecRel/company_stay/company_stay.py:71 | the run of characters other than braces stops at the first brace |
| CompanyStay.BracedEntries | PFM-ExecRel/company_stay/company_stay.py:71 | re.findall(r'{([^{}]+)}') yields only non-empty brace-free entries |
| CompanyStay.ParseWork | PFM-ExecRel/company_stay/company_stay.py:74-86 | an entry yields a record exactly when time, role and employer all match, with those values and the department or "" |
| CompanyStay.WorkRecords | PFM-ExecRel/company_stay/company_stay.py:73-86 | at most one record per entry |
| CompanyStay.AppendWorkRecords | PFM-ExecRel/company_stay/company_stay.py:73-86 | the entry loop appends each entry's record, when it yields one, in order |
| CompanyStay.VisitSegment | PFM-ExecRel/company_stay/company_stay.py:35-86 | a name segment emits the executive being read and opens the next; a qualification or work segment updates the executive being read and is ignored before the first name |
| CompanyStay.ExtractExecutivesInfo | PFM-ExecRel/company_stay/company_stay.py:13-104 | the segment loop then the last executive; nothing when the executive list is not a string |
| CompanyStay.RunFollowsNames | PFM-ExecRel/company_stay/company_stay.py:28-56 | after the loop the executives emitted plus the one being read are one per name segment, in order |
| CompanyStay.ExecutivesFollowNames | PFM-ExecRel/company_stay/company_stay.py:28-97 | one executive per segment holding a name, in order, with the row's company and that segment's name and position or "未知" |
| CompanyStay.NoNameNoRun | PFM-ExecRel/company_stay/company_stay.py:26-69 | before the first name segment nothing is collected and nothing is being read (lines 26, 59, 69) |
| CompanyStay.ExecutivesRead | PFM-ExecRel/company_stay/company_stay.py:39-97 | every field of every executive is "未知" or a value the patterns read, and every work record has a non-empty time and role |
| CompanyStay.RecordCompanies | PFM-ExecRel/company_stay/company_stay.py:114-115 | one employer per work record |
| CompanyStay.Keys | PFM-ExecRel/company_stay/company_stay.py:117 | the counter's companies, in order |
| CompanyStay.KeyPos | PFM-ExecRel/company_stay/company_stay.py:117 | the position of a company in the counter, and −1 only when no entry from there on has it |
| CompanyStay.KeyPosFinds | PFM-ExecRel/company_stay/company_stay.py:117 | a company is found exactly when it is one of the counter's keys |
| CompanyStay.BumpKeys | PFM-ExecRel/company_stay/company_stay.py:117 | counting a new company appends it, counting an old one keeps the order |
| CompanyStay.BumpCount | PFM-ExecRel/company_stay/company_stay.py:117 | counting a company adds one to its count and leaves every other count alone |
| CompanyStay.BumpSum | PFM-ExecRel/company_stay/company_stay.py:117 | counting a company adds one to the total |
| CompanyStay.TallyKeys | PFM-ExecRel/company_stay/company_stay.py:114-117 | the counter's companies are distinct and are exactly the non-empty employers |
| CompanyStay.TallyCounts | PFM-ExecRel/company_stay/company_stay.py:114-117 | every company's count is its number of records; an empty employer is never counted |
| CompanyStay.TallySum | PFM-ExecRel/company_stay/company_stay.py:114-117 | the counts add up to the number of records with an employer |
| CompanyStay.TallyOrder | PFM-ExecRel/company_stay/company_stay.py:108-117 | the companies stand in the order of their first record, as the dict keeps them (lines 108, 117) |
| CompanyStay.CountAt | PFM-ExecRel/company_stay/company_stay.py:117 | with distinct companies, an entry's count is its company's count |
| CompanyStay.InsertDescMultiset | PFM-ExecRel/company_stay/company_stay.py:120 | inserting an entry adds exactly that entry |
| CompanyStay.InsertDescDescending | PFM-ExecRel/company_stay/company_stay.py:120 | inserting into a descending list keeps it descending |
| CompanyStay.InsertDescWith | PFM-ExecRel/company_stay/company_stay.py:120 | an inserted entry goes after every entry with its count |
| CompanyStay.SortDescSorted | PFM-ExecRel/company_stay/company_stay.py:120 | sorted(..., key=count, reverse=True) is in descending count order and a permutation of its input |
| CompanyStay.SortDescStable | PFM-ExecRel/company_stay/company_stay.py:120 | entries with the same count keep their order: the sort is stable |
| CompanyStay.SortDescSum | PFM-ExecRel/company_stay/company_stay.py:120 | sorting the counts keeps their total |
| CompanyStay.CompanyCountsShape | PFM-ExecRel/company_stay/company_stay.py:106-121 | every entry is a non-empty employer with its number of records, every such employer has exactly one entry, the counts descend and add up to the records with an employer |
| CompanyStay.TallyRecords | PFM-ExecRel/company_stay/company_stay.py:114-117 | one executive's records are counted into the counter |
| CompanyStay.CountCompanies | PFM-ExecRel/company_stay/company_stay.py:106-121 | the counter of all executives' records, sorted by count |
| CompanyStay.Top | PFM-ExecRel/company_stay/company_stay.py:126 | data[:n] is a prefix of length n clamped to the data, a negative n counting from the end |
| CompanyStay.Shorten | PFM-ExecRel/company_stay/company_stay.py:140-144 | a name of at most 15 characters is kept; a longer one becomes its first 15 characters and "...", so no label exceeds 18 |
| CompanyStay.PlotBars | PFM-ExecRel/company_stay/company_stay.py:126-146 | one bar per company of the first top_n, labelled by its shortened name and as long as its count |
| CompanyStay.RowsPrefix | PFM-ExecRel/company_stay/company_stay.py:197-204 | the rows of the first companies begin the rows of all |
| CompanyStay.PageFrame | PFM-ExecRel/company_stay/company_stay.py:170-211 | the page opens with the header and closes with the footer |
| CompanyStay.RowsAt | PFM-ExecRel/company_stay/company_stay.py:197-204 | the row of the k-th company, ranked k + 1 with its name and count, follows the rows of the companies before it |
| CompanyStay.AppendRows | PFM-ExecRel/company_stay/company_stay.py:197-204 | the row loop appends one row per company, in order |
| CompanyStay.GenerateHtml | PFM-ExecRel/company_stay/company_stay.py:168-213 | the page is the header, a row per company and the footer |

## Left out

- Strategy `main()` functions are not modelled: CSV paths, data loading, the backtester, PnL and plotting all live in a `module` package that is not part of this model.
- Indicator primitives are inputs, since the `module.indicators` package is not part of this model: Average, AverageFC, StandardDev, Highest, Lowest, AvgTrueRange, TrueRange, XAverage, Momentum, CrossOver and CrossUnder. Their outputs are given as columns, except in DynamicBreakOut.Channel (next line).
- DynamicBreakOut.Channel computes its values instead of taking them as columns. It takes `Average`, `HighestFC` and `LowestFC` over the slice `df[...].iloc[i-period+1:i+1]` to be that window's mean, highest value and lowest value. What the unseen primitives compute is assumed, not modelled; only `StandardDev` stays an input column. The unseen `StrategyBase` is taken to store a parameter map (`Common.MergeParams`).
- Floating point is modelled as exact `real` arithmetic, so IEEE rounding is not captured. NaN is a missing value, and comparisons with it are false.
- `pandas.ewm` is not modelled: the exponential averages are input columns.
- `sqrt` in DisplacedBoll_S is an input column constrained to be the square root of the modelled variance.
- `iloc` at a position before the start of a column raises `IndexError` in pandas. The model reads it as NaN.
- The chained assignment `signals.iloc[-1]['call'] = 0` in Going_in_Style_L and Trading_Range_Breakout_S may or may not write, depending on pandas copy/view rules. It is a boolean parameter `forcedCloseWrites`, and lemmas cover both cases.
- NoHurrySystemS.GenerateSignals: the model emits no signal on bar 0. With ChanLength + ChanDelay = 0 the source would read `iloc[-1]` there, and that case is not modelled.
- VwmS.GenerateSignals assumes a `RangeIndex`. With any other index, the source's `loc` writes append new rows, which is not modelled.
- GhostTraderS.RsiLoop requires `Length >= 1`: with `Length` 0 the source's Wilder factor `1/length` raises `ZeroDivisionError`, and that path is not modelled.
- DynamicBreakOut.CalculateIndicators requires `floorAmt >= 1`. With a smaller floorAmt a lookback can reach 0 or below, and the channel loop then passes empty slices to the indicator primitives, which are not part of this model. Their result, or the error they raise, is not modelled.
- Chunker.SplitIntoChunks requires `max_length >= 1` and `overlap <= max_length // 2`. For other arguments the source's window start may not advance, and its loop need not end.
- Chunker: embedding, ChromaDB storage and `create_vector_database`/`query_document` are I/O and not modelled. So is `crawler/ForexFactory/llm.py`, whose budget loop depends on tokenizer counts.
- Crawling is not modelled: crawl4ai, `AsyncWebCrawler` sessions, asyncio scheduling and the injected JavaScript. Page fetches are function parameters, and the concurrency of a batch is not modelled.
- BeautifulSoup HTML parsing is not modelled. An index page is given as its list of anchors (`ThreadsLink.Anchor`).
- `clean_markdown_content` (its cascade of regular-expression rewrites) is not modelled. The cleaned content of a page is an input (`ThreadsDetail.Page.cleaned`).
- The post pattern of `ForexPostFilter` is not modelled. The posts it finds are given as their captured fields (`ThreadsDetail.PostInfo`).
- `str.title()` and `\d` are modelled on ASCII letters and digits only. Python's Unicode case mapping and digit classes are not modelled.
- `json.dumps`, file writes, timestamped file names and `print` progress messages are not modelled.
- CompanyStay.ExtractExecutivesInfo models the `except` path only for a non-string executive list, which yields no executives. Other exceptions are not modelled.
- CompanyStay.PlotBars: the matplotlib drawing, PNG/base64 encoding, `webbrowser.open` and the CSV reading in `main` are not modelled. The model gives the bar labels and lengths.
- `company_stay.py`'s check `'work_records' in current_exec` (line 38) always holds, because every executive being read has that key, so the model has no branch for it.
- `company_stay.py`'s check `if '工作履历' not in exec_info` (line 111) can never fire, because every executive carries that key. The model has no branch for it.
