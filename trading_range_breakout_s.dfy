/*
 * Trading_Range_Breakout_S: a short breakout system. The trading range is
 * the highest high and lowest low of the seven bars before each bar;
 * NoTrades adds up how far the bars inside the range stayed from its edges.
 * A short opens after a wide, quiet range when the previous close broke
 * below the range; it is covered on an upside break, at the range high
 * recorded at entry, or when the high comes back ATRs·ATR above the lowest
 * low since entry. Codes: -1 entry, 0 exit, NaN elsewhere.
 */
module TradingRangeBreakoutS {
  import opened Wrappers
  import opened Common
  import opened Events

  // ----- parameters: the constructor overwrites whatever the caller passed -----

  const RangeLen: nat := 7
  const RngPcnt: real := 200.0
  const ATRs: real := 8.0
  const ATRLen: nat := 2
  const Lots: real := 1.0

  function Forced(): ParamMap
  {
    map["RangeLen" := 7.0, "RngPcnt" := 200.0, "ATRs" := 8.0, "ATRLen" := 2.0, "Lots" := 1.0]
  }

  /** `self.params` after the constructor: the caller's map (or none), then the hard-coded update. */
  function ConstructedParams(params: Option<ParamMap>): ParamMap
  {
    (if params.Some? then params.value else map[]) + Forced()
  }

  /** Whatever the caller passes, the five strategy parameters take the hard-coded values; other keys survive. */
  lemma ConstructorOverridesCaller(params: Option<ParamMap>)
    ensures var r := ConstructedParams(params);
      r["RangeLen"] == RangeLen as real && r["RngPcnt"] == RngPcnt && r["ATRs"] == ATRs &&
      r["ATRLen"] == ATRLen as real && r["Lots"] == Lots
    ensures params.Some? ==> forall k :: k in params.value && k !in Forced() ==> k in ConstructedParams(params) && ConstructedParams(params)[k] == params.value[k]
  {
  }

  // ----- indicators -----

  /** `RangeH[i]`: the highest high of bars i-7 .. i-1 (bar i itself excluded); NaN before bar 7. */
  function RangeHAt(bars: seq<Bar>, i: int): (r: Option<real>)
    requires 0 <= i < |bars|
    ensures r.Some? <==> i >= RangeLen
    ensures r.Some? ==> (forall k :: i - RangeLen <= k < i ==> bars[k].high <= r.value) &&
                        (exists k :: i - RangeLen <= k < i && bars[k].high == r.value)
  {
    if i >= RangeLen then
      var w := Highs(bars)[i - RangeLen .. i];
      assert forall k :: i - RangeLen <= k < i ==> w[k - (i - RangeLen)] == bars[k].high;
      Some(Max(w))
    else None
  }

  /** `RangeL[i]`: the lowest low of bars i-7 .. i-1; NaN before bar 7. */
  function RangeLAt(bars: seq<Bar>, i: int): (r: Option<real>)
    requires 0 <= i < |bars|
    ensures r.Some? <==> i >= RangeLen
    ensures r.Some? ==> (forall k :: i - RangeLen <= k < i ==> r.value <= bars[k].low) &&
                        (exists k :: i - RangeLen <= k < i && bars[k].low == r.value)
  {
    if i >= RangeLen then
      var w := Lows(bars)[i - RangeLen .. i];
      assert forall k :: i - RangeLen <= k < i ==> w[k - (i - RangeLen)] == bars[k].low;
      Some(Min(w))
    else None
  }

  function RangeH(bars: seq<Bar>): (r: Column)
    ensures |r| == |bars|
  {
    seq(|bars|, i requires 0 <= i < |bars| => RangeHAt(bars, i))
  }

  function RangeL(bars: seq<Bar>): (r: Column)
    ensures |r| == |bars|
  {
    seq(|bars|, i requires 0 <= i < |bars| => RangeLAt(bars, i))
  }

  function TRange(bars: seq<Bar>): (r: Column)
    ensures |r| == |bars|
  {
    seq(|bars|, i requires 0 <= i < |bars| => Sub(RangeHAt(bars, i), RangeLAt(bars, i)))
  }

  /** The range is never negative: its high is some bar's high, its low some bar's low, and every bar has high ≥ low. */
  lemma TRangeNonNegative(bars: seq<Bar>, i: int)
    requires WellFormed(bars) && RangeLen <= i < |bars|
    ensures TRange(bars)[i].Some? && TRange(bars)[i].value >= 0.0
  {
    var h, l := RangeHAt(bars, i).value, RangeLAt(bars, i).value;
    assert bars[i - 1].high <= h && l <= bars[i - 1].low;
    assert WellFormedBar(bars[i - 1]);
  }

  /** `clip(lower=0)`. */
  function ClipAtZero(x: real): real
  {
    if x < 0.0 then 0.0 else x
  }

  /** The clipped gaps of bars i-1 .. i-k against the range edges of bar i. */
  function GapSum(bars: seq<Bar>, i: int, k: nat): real
    requires RangeLen <= i < |bars| && k <= RangeLen
  {
    if k == 0 then 0.0
    else GapSum(bars, i, k - 1) +
         ClipAtZero(RangeHAt(bars, i).value - bars[i - k].high) + ClipAtZero(bars[i - k].low - RangeLAt(bars, i).value)
  }

  /** `NoTrades[i]`; before bar 7 every gap is NaN and the row sum of NaNs is 0. */
  function NoTradesAt(bars: seq<Bar>, i: int): real
    requires 0 <= i < |bars|
  {
    if i >= RangeLen then GapSum(bars, i, RangeLen) else 0.0
  }

  function NoTrades(bars: seq<Bar>): (r: Column)
    ensures |r| == |bars|
  {
    seq(|bars|, i requires 0 <= i < |bars| => Some(NoTradesAt(bars, i)))
  }

  lemma {:induction false} GapSumNonNegative(bars: seq<Bar>, i: int, k: nat)
    requires RangeLen <= i < |bars| && k <= RangeLen
    ensures GapSum(bars, i, k) >= 0.0
  {
    if k > 0 {
      GapSumNonNegative(bars, i, k - 1);
    }
  }

  /** NoTrades is a sum of clipped gaps, so never negative. */
  lemma NoTradesNonNegative(bars: seq<Bar>, i: int)
    requires 0 <= i < |bars|
    ensures NoTradesAt(bars, i) >= 0.0
  {
    if i >= RangeLen {
      GapSumNonNegative(bars, i, RangeLen);
    }
  }

  /** The clip never bites: the bars the gaps are taken from lie inside the range, so every raw gap is already ≥ 0. */
  lemma GapsAreInsideRange(bars: seq<Bar>, i: int, k: int)
    requires RangeLen <= i < |bars| && 1 <= k <= RangeLen
    ensures RangeHAt(bars, i).value - bars[i - k].high >= 0.0
    ensures bars[i - k].low - RangeLAt(bars, i).value >= 0.0
  {
  }

  // ----- the columns generate_signals derives -----

  /** The frame `generate_signals` is given: bars, the indicator columns, and `TrueRange` of the bars. */
  datatype Columns = Columns(bars: seq<Bar>, rangeH: Column, rangeL: Column, tRange: Column, atr: Column, atrma: Column,
                             noTrades: Column, trueRange: Column)

  predicate ValidColumns(d: Columns)
  {
    |d.rangeH| == |d.bars| && |d.rangeL| == |d.bars| && |d.tRange| == |d.bars| && |d.atr| == |d.bars| &&
    |d.atrma| == |d.bars| && |d.noTrades| == |d.bars| && |d.trueRange| == |d.bars|
  }

  function MidPrice(bars: seq<Bar>): (r: Column)
    ensures |r| == |bars|
  {
    seq(|bars|, i requires 0 <= i < |bars| => Some((bars[i].high + bars[i].low) * 0.5))
  }

  /** condition1: the previous bar's NoTrades is at least RngPcnt % of its range. */
  predicate Condition1(d: Columns, i: int)
    requires ValidColumns(d) && 0 <= i < |d.bars|
  {
    Ge(Shift(d.noTrades, 1)[i], Mul(Shift(d.tRange, 1)[i], Some(RngPcnt * 0.01)))
  }

  /** condition2: the previous bar's true range exceeds the 7-bar ATR of two bars back. */
  predicate Condition2(d: Columns, i: int)
    requires ValidColumns(d) && 0 <= i < |d.bars|
  {
    Gt(Shift(d.trueRange, 1)[i], Shift(d.atrma, 2)[i])
  }

  /** condition3: the previous close broke above its range and its midpoint above the high before it. */
  predicate Condition3(d: Columns, i: int)
    requires ValidColumns(d) && 0 <= i < |d.bars|
  {
    Gt(Shift(Defined(Closes(d.bars)), 1)[i], Shift(d.rangeH, 1)[i]) &&
    Gt(Shift(MidPrice(d.bars), 1)[i], Shift(Defined(Highs(d.bars)), 2)[i])
  }

  /** condition4: the previous close broke below its range and its midpoint below the low before it. */
  predicate Condition4(d: Columns, i: int)
    requires ValidColumns(d) && 0 <= i < |d.bars|
  {
    Lt(Shift(Defined(Closes(d.bars)), 1)[i], Shift(d.rangeL, 1)[i]) &&
    Lt(Shift(MidPrice(d.bars), 1)[i], Shift(Defined(Lows(d.bars)), 2)[i])
  }

  function ConditionColumn(d: Columns, c: int): (r: seq<bool>)
    requires ValidColumns(d) && 1 <= c <= 4
    ensures |r| == |d.bars|
  {
    seq(|d.bars|, i requires 0 <= i < |d.bars| =>
      if c == 1 then Condition1(d, i) else if c == 2 then Condition2(d, i)
      else if c == 3 then Condition3(d, i) else Condition4(d, i))
  }

  // ----- the signal loop -----

  /** What the loop reads: bars, RangeH, ATR and the four condition columns. */
  datatype Data = Data(bars: seq<Bar>, rangeH: Column, atr: Column,
                       condition1: seq<bool>, condition2: seq<bool>, condition3: seq<bool>, condition4: seq<bool>)

  predicate Valid(d: Data)
  {
    |d.rangeH| == |d.bars| && |d.atr| == |d.bars| && |d.condition1| == |d.bars| &&
    |d.condition2| == |d.bars| && |d.condition3| == |d.bars| && |d.condition4| == |d.bars|
  }

  /** The loop's view of a frame after the condition columns were added. */
  function LoopData(c: Columns): (d: Data)
    requires ValidColumns(c)
    ensures Valid(d)
  {
    Data(c.bars, c.rangeH, c.atr, ConditionColumn(c, 1), ConditionColumn(c, 2), ConditionColumn(c, 3), ConditionColumn(c, 4))
  }

  /**
   * `short_risk` and `short_low` start at 0 and +∞; `shortLow == None`
   * stands for +∞.
   */
  datatype State = State(position: int, shortRisk: Option<real>, shortLow: Option<real>, positionBars: int)

  const Init := State(0, Some(0.0), None, 0)

  /** `min(short_low, low)` with +∞ as None. */
  function LowerOf(shortLow: Option<real>, low: real): real
  {
    if shortLow.None? || low < shortLow.value then low else shortLow.value
  }

  predicate EntryCondition(d: Data, i: int)
    requires Valid(d) && 0 <= i < |d.bars|
  {
    d.condition1[i] && d.condition2[i] && d.condition4[i] && d.bars[i].vol > 0.0
  }

  /** One iteration: the new state and the code written on bar `i`, if any. */
  function Step(d: Data, st: State, i: int): (State, Option<int>)
    requires Valid(d) && 0 <= i < |d.bars|
  {
    if st.position == 0 then
      if EntryCondition(d, i) then (State(-1, d.rangeH[i], Some(d.bars[i].low), 0), Some(-1))
      else (st, None)
    else if st.position == -1 then
      var held := st.positionBars + 1;
      if held > 0 then
        var low := LowerOf(st.shortLow, d.bars[i].low);
        var kept := State(-1, st.shortRisk, Some(low), held);
        if d.condition3[i] then (kept.(position := 0), Some(0))
        else if Ge(Some(d.bars[i].high), st.shortRisk) then (kept.(position := 0), Some(0))
        else if Ge(Some(d.bars[i].high), Add(Some(low), Mul(Some(ATRs), d.atr[i]))) then (kept.(position := 0), Some(0))
        else (kept, None)
      else (st.(positionBars := held), None)
    else (st, None)
  }

  /** The state when the iteration for bar `i` begins; the loop runs over bars 7 .. n-1. */
  function StateBefore(d: Data, i: int): State
    requires Valid(d) && 0 <= i <= |d.bars|
  {
    if i <= RangeLen then Init else Step(d, StateBefore(d, i - 1), i - 1).0
  }

  function CallAt(d: Data, i: int): Option<int>
    requires Valid(d) && RangeLen <= i < |d.bars|
  {
    Step(d, StateBefore(d, i), i).1
  }

  function LoopColumn(d: Data): (r: seq<Option<int>>)
    requires Valid(d)
    ensures |r| == |d.bars|
  {
    seq(|d.bars|, j requires 0 <= j < |d.bars| => if j >= RangeLen then CallAt(d, j) else None)
  }

  /**
   * What `generate_signals` returns. The forced close is the chained
   * assignment `signals.iloc[-1]['call'] = 0`, which writes into a copy or
   * into the frame depending on pandas; `forcedCloseWrites` says which.
   */
  function Signals(d: Data, forcedCloseWrites: bool): (r: seq<Option<int>>)
    requires Valid(d)
    ensures |r| == |d.bars|
  {
    ForceClose(LoopColumn(d), forcedCloseWrites && StateBefore(d, |d.bars|).position == -1, 0)
  }

  /** The signal loop over the prepared columns; it changes nothing but its result. */
  method SignalLoop(d: Data, forcedCloseWrites: bool) returns (calls: seq<Option<int>>)
    requires Valid(d)
    ensures calls == Signals(d, forcedCloseWrites)
  {
    var n := |d.bars|;
    calls := seq(n, _ => None);
    var position, shortRisk, shortLow, positionBars := 0, Some(0.0), None, 0;
    if n <= RangeLen {
      assert StateBefore(d, n) == Init;
      assert calls == LoopColumn(d);
      return;
    }
    var i := RangeLen;
    while i < n
      invariant RangeLen <= i <= n
      invariant State(position, shortRisk, shortLow, positionBars) == StateBefore(d, i)
      invariant |calls| == n
      invariant forall j :: 0 <= j < i ==> calls[j] == if j >= RangeLen then CallAt(d, j) else None
      invariant forall j :: i <= j < n ==> calls[j] == None
    {
      if position == 0 {
        if d.condition1[i] && d.condition2[i] && d.condition4[i] && d.bars[i].vol > 0.0 {
          calls := calls[i := Some(-1)];
          position := -1;
          shortRisk := d.rangeH[i];
          shortLow := Some(d.bars[i].low);
          positionBars := 0;
        }
      } else if position == -1 {
        positionBars := positionBars + 1;
        if positionBars > 0 {
          shortLow := Some(LowerOf(shortLow, d.bars[i].low));
          if d.condition3[i] {
            calls := calls[i := Some(0)];
            position := 0;
          } else if Ge(Some(d.bars[i].high), shortRisk) {
            calls := calls[i := Some(0)];
            position := 0;
          } else if Ge(Some(d.bars[i].high), Add(shortLow, Mul(Some(ATRs), d.atr[i]))) {
            calls := calls[i := Some(0)];
            position := 0;
          }
        }
      }
      i := i + 1;
    }
    if forcedCloseWrites && position == -1 {
      calls := calls[n - 1 := Some(0)];
    }
    assert calls == ForceClose(LoopColumn(d), forcedCloseWrites && position == -1, 0);
  }

  /** `calculate_indicators`: adds the range, ATR and NoTrades columns to the caller's frame. */
  method CalculateIndicators(f: Frame, bars: seq<Bar>, atr: Column, atrma: Column)
    requires f.Valid() && f.length == |bars| && |atr| == |bars| && |atrma| == |bars|
    modifies f
    ensures f.Valid() && f.length == old(f.length) && f.flag == old(f.flag)
    ensures f.num == old(f.num)["RangeH" := RangeH(bars)]["RangeL" := RangeL(bars)]["TRange" := TRange(bars)]
                               ["ATR" := atr]["ATRMA" := atrma]["NoTrades" := NoTrades(bars)]
  {
    f.num := f.num["RangeH" := RangeH(bars)]["RangeL" := RangeL(bars)]["TRange" := TRange(bars)];
    f.num := f.num["ATR" := atr]["ATRMA" := atrma]["NoTrades" := NoTrades(bars)];
  }

  /** The frame's columns as the signal loop reads them. */
  function ColumnsOf(bars: seq<Bar>, num: map<string, Column>, trueRange: Column): Columns
    requires "RangeH" in num && "RangeL" in num && "TRange" in num && "ATR" in num && "ATRMA" in num && "NoTrades" in num
  {
    Columns(bars, num["RangeH"], num["RangeL"], num["TRange"], num["ATR"], num["ATRMA"], num["NoTrades"], trueRange)
  }

  /**
   * `generate_signals`: adds `mid_price` and condition1..4 to the caller's
   * frame, then runs the signal loop.
   */
  method GenerateSignals(f: Frame, bars: seq<Bar>, trueRange: Column, forcedCloseWrites: bool) returns (calls: seq<Option<int>>)
    requires f.Valid() && f.length == |bars| && |trueRange| == |bars|
    requires "RangeH" in f.num && "RangeL" in f.num && "TRange" in f.num && "ATR" in f.num && "ATRMA" in f.num && "NoTrades" in f.num
    requires |f.num["RangeH"]| == |bars| && |f.num["ATR"]| == |bars|
    modifies f
    ensures f.Valid() && f.length == old(f.length)
    ensures f.num == old(f.num)["mid_price" := MidPrice(bars)]
    ensures var d := ColumnsOf(bars, old(f.num), trueRange);
      ValidColumns(d) &&
      f.flag == old(f.flag)["condition1" := ConditionColumn(d, 1)]["condition2" := ConditionColumn(d, 2)]
                           ["condition3" := ConditionColumn(d, 3)]["condition4" := ConditionColumn(d, 4)] &&
      calls == Signals(LoopData(d), forcedCloseWrites)
  {
    var d := ColumnsOf(bars, f.num, trueRange);
    f.num := f.num["mid_price" := MidPrice(bars)];
    f.flag := f.flag["condition1" := ConditionColumn(d, 1)]["condition2" := ConditionColumn(d, 2)];
    f.flag := f.flag["condition3" := ConditionColumn(d, 3)]["condition4" := ConditionColumn(d, 4)];
    calls := SignalLoop(LoopData(d), forcedCloseWrites);
  }

  // ===================== properties =====================

  /** One step keeps the book flat or short and writes exactly the code of its position change. */
  lemma StepTransition(d: Data, st: State, i: int)
    requires Valid(d) && 0 <= i < |d.bars| && st.position in {0, -1} && st.positionBars >= 0
    requires st.position == -1 ==> st.shortLow.Some?
    ensures var (next, code) := Step(d, st, i);
      next.position in {0, -1} && next.positionBars >= 0 && (next.position == -1 ==> next.shortLow.Some?) &&
      code == Transition(st.position, next.position, -1, -1, 0)
  {
  }

  /** A step while short lowers `short_low` to the bar's low if needed and keeps `short_risk`. */
  lemma StepWhileShort(d: Data, st: State, i: int)
    requires Valid(d) && 0 <= i < |d.bars| && st.position == -1 && st.positionBars >= 0
    ensures Step(d, st, i).0.shortLow == Some(LowerOf(st.shortLow, d.bars[i].low))
    ensures Step(d, st, i).0.shortRisk == st.shortRisk
    ensures Step(d, st, i).1 == None ==> Step(d, st, i).0.position == -1
  {
  }

  /** Flat or short; while short the lowest low since entry is known. */
  lemma {:induction false} StateShape(d: Data, i: int)
    requires Valid(d) && 0 <= i <= |d.bars|
    ensures StateBefore(d, i).position in {0, -1}
    ensures StateBefore(d, i).positionBars >= 0
    ensures StateBefore(d, i).position == -1 ==> StateBefore(d, i).shortLow.Some?
    decreases i
  {
    if i > RangeLen {
      StateShape(d, i - 1);
      StepTransition(d, StateBefore(d, i - 1), i - 1);
    }
  }

  /** A short entry is written exactly when flat and condition1, condition2, condition4 and positive volume hold. */
  lemma EntryExactly(d: Data, i: int)
    requires Valid(d) && RangeLen <= i < |d.bars|
    ensures CallAt(d, i) == Some(-1) <==>
      StateBefore(d, i).position == 0 && d.condition1[i] && d.condition2[i] && d.condition4[i] && d.bars[i].vol > 0.0
    ensures CallAt(d, i) == Some(-1) ==>
      StateBefore(d, i + 1).shortRisk == d.rangeH[i] && StateBefore(d, i + 1).shortLow == Some(d.bars[i].low)
  {
    StateShape(d, i);
  }

  /**
   * A cover is written exactly when short and, in this order of priority,
   * condition3 holds, or the high reaches the range high recorded at entry,
   * or it reaches ATRs·ATR above the lowest low including this bar's; no
   * volume is needed.
   */
  lemma ExitExactly(d: Data, i: int)
    requires Valid(d) && RangeLen <= i < |d.bars|
    ensures var st := StateBefore(d, i);
      CallAt(d, i) == Some(0) <==>
      st.position == -1 &&
      (d.condition3[i] || Ge(Some(d.bars[i].high), st.shortRisk) ||
       Ge(Some(d.bars[i].high), Add(Some(LowerOf(st.shortLow, d.bars[i].low)), Mul(Some(ATRs), d.atr[i]))))
  {
    StateShape(d, i);
  }

  /** After an entry on bar `e` and no event since, `short_low` is the lowest low of bars e .. i-1. */
  lemma {:induction false} ShortLowIsRunningMinimum(d: Data, e: int, i: int)
    requires Valid(d) && RangeLen <= e < i <= |d.bars|
    requires CallAt(d, e) == Some(-1)
    requires forall j :: e < j < i ==> CallAt(d, j) == None
    ensures StateBefore(d, i).position == -1
    ensures StateBefore(d, i).shortLow == Some(Min(Lows(d.bars)[e .. i]))
    ensures StateBefore(d, i).shortRisk == d.rangeH[e]
    decreases i
  {
    StateShape(d, i - 1);
    if i - 1 > e {
      assert CallAt(d, i - 1) == None;
      ShortLowIsRunningMinimum(d, e, i - 1);
      StepWhileShort(d, StateBefore(d, i - 1), i - 1);
      MinOfExtendedSlice(Lows(d.bars), e, i);
    } else {
      EntryExactly(d, e);
      assert Lows(d.bars)[e .. i] == [d.bars[e].low];
    }
  }

  function Positions(d: Data): (r: seq<int>)
    requires Valid(d)
    ensures |r| == |d.bars| + 1
  {
    seq(|d.bars| + 1, j requires 0 <= j <= |d.bars| => StateBefore(d, j).position)
  }

  lemma PositionsAt(d: Data, j: int)
    requires Valid(d) && 0 <= j <= |d.bars|
    ensures Positions(d)[j] == StateBefore(d, j).position
  {
  }

  /** Bar `j` carries exactly the code of the position change across it. */
  lemma CallIsTransition(d: Data, j: int)
    requires Valid(d) && 0 <= j < |d.bars|
    ensures StateBefore(d, j).position in {0, -1}
    ensures (if j >= RangeLen then CallAt(d, j) else None) ==
            Transition(StateBefore(d, j).position, StateBefore(d, j + 1).position, -1, -1, 0)
  {
    StateShape(d, j);
    if j >= RangeLen {
      var st := StateBefore(d, j);
      StepTransition(d, st, j);
      assert StateBefore(d, j + 1) == Step(d, st, j).0;
    }
  }

  lemma PositionAt(d: Data, j: int)
    requires Valid(d) && 0 <= j <= |d.bars|
    ensures Positions(d)[j] == 0 || Positions(d)[j] == -1
  {
    StateShape(d, j);
  }

  lemma ColumnAt(d: Data, j: int)
    requires Valid(d) && 0 <= j < |d.bars|
    ensures LoopColumn(d)[j] == Transition(Positions(d)[j], Positions(d)[j + 1], -1, -1, 0)
  {
    CallIsTransition(d, j);
    PositionsAt(d, j);
    PositionsAt(d, j + 1);
  }

  lemma LoopFollowsPositions(d: Data)
    requires Valid(d)
    ensures Follows(LoopColumn(d), Positions(d), -1, -1, 0)
  {
    forall j | 0 <= j <= |d.bars| ensures Positions(d)[j] == 0 || Positions(d)[j] == -1 {
      PositionAt(d, j);
    }
    forall j | 0 <= j < |d.bars| ensures LoopColumn(d)[j] == Transition(Positions(d)[j], Positions(d)[j + 1], -1, -1, 0) {
      ColumnAt(d, j);
    }
  }

  /** When the forced close writes and no entry lands on the last bar, the column alternates and ends flat. */
  lemma NetFlat(d: Data)
    requires Valid(d)
    requires |d.bars| > 0 ==> LoopColumn(d)[|d.bars| - 1] != Some(-1)
    ensures Alternating(Codes(Signals(d, true)), -1, 0) && |Codes(Signals(d, true))| % 2 == 0
  {
    LoopFollowsPositions(d);
    ForcedCloseBalances(LoopColumn(d), Positions(d), -1, -1, 0);
  }

  /** When the chained assignment does not write, a short still open at the end stays open: the entries outnumber the exits. */
  lemma ForcedCloseLost(d: Data)
    requires Valid(d) && StateBefore(d, |d.bars|).position == -1
    ensures Signals(d, false) == LoopColumn(d)
    ensures Alternating(Codes(Signals(d, false)), -1, 0) && |Codes(Signals(d, false))| % 2 == 1
  {
    LoopFollowsPositions(d);
    FollowsAlternates(LoopColumn(d), Positions(d), -1, -1, 0);
  }
}
