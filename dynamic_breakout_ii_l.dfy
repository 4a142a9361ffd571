/*
 * DynamicBreakOutII_L: go long when the previous close was above the upper
 * Bollinger band and the bar reaches the previous Donchian high; leave when
 * the bar falls to the adaptive mid line, or when the previous close was
 * below the lower band and the bar reaches the previous Donchian low.
 * Codes: 1 entry, 0 exit, NaN elsewhere; a long still open at the end is
 * closed on the last bar.
 */
module DynamicBreakOutIIL {
  import opened Wrappers
  import opened Common
  import opened Events
  import opened DynamicBreakOut

  /** The condition that opens a long on bar `i`. */
  predicate EntryCondition(d: Indicators, i: int)
    requires WellShaped(d) && 1 <= i < |d.bars|
  {
    Gt(Some(d.bars[i - 1].close), d.upBand[i - 1]) && Ge(Some(d.bars[i].high), d.buyPoint[i - 1])
  }

  /** Exit 1: the low reaches the mid line. */
  predicate LiquidationCondition(d: Indicators, i: int)
    requires WellShaped(d) && 1 <= i < |d.bars|
  {
    Le(Some(d.bars[i].low), d.liqPoint[i - 1])
  }

  /** Exit 2: the previous close was below the lower band and the low reaches the Donchian low. */
  predicate BreakdownCondition(d: Indicators, i: int)
    requires WellShaped(d) && 1 <= i < |d.bars|
  {
    Lt(Some(d.bars[i - 1].close), d.dnBand[i - 1]) && Le(Some(d.bars[i].low), d.sellPoint[i - 1])
  }

  /** One iteration of the signal loop: the new position and the code written on bar `i`, if any. */
  function Step(d: Indicators, position: int, i: int): (int, Option<int>)
    requires WellShaped(d) && 1 <= i < |d.bars|
  {
    if position == 0 && EntryCondition(d, i) then (1, Some(1))
    else if position == 1 && LiquidationCondition(d, i) then (0, Some(0))
    else if position == 1 && BreakdownCondition(d, i) then (0, Some(0))
    else (position, None)
  }

  /** The position when the iteration for bar `i` begins (the loop starts at bar 1). */
  function PositionBefore(d: Indicators, i: int): int
    requires WellShaped(d) && 0 <= i <= |d.bars|
  {
    if i <= 1 then 0 else Step(d, PositionBefore(d, i - 1), i - 1).0
  }

  function CallAt(d: Indicators, i: int): Option<int>
    requires WellShaped(d) && 1 <= i < |d.bars|
  {
    Step(d, PositionBefore(d, i), i).1
  }

  /** The `call` column the loop leaves, before the forced close. */
  function LoopColumn(d: Indicators): (r: seq<Option<int>>)
    requires WellShaped(d)
    ensures |r| == |d.bars|
  {
    seq(|d.bars|, j requires 0 <= j < |d.bars| => if j >= 1 then CallAt(d, j) else None)
  }

  /** What `generate_signals` returns: an error below `floorAmt` bars. */
  function Signals(p: Params, d: Indicators): Outcome<seq<Option<int>>>
    requires WellShaped(d)
  {
    if |d.bars| < p.floorAmt then Raised("数据长度不足")
    else Produced(ForceClose(LoopColumn(d), PositionBefore(d, |d.bars|) == 1, 0))
  }

  method GenerateSignals(p: Params, d: Indicators) returns (out: Outcome<seq<Option<int>>>)
    requires WellShaped(d)
    ensures out == Signals(p, d)
  {
    var n := |d.bars|;
    if n < p.floorAmt {
      return Raised("数据长度不足");
    }
    var calls: seq<Option<int>> := seq(n, _ => None);
    var position := 0;
    var i := 1;
    while i < n
      invariant 1 <= i <= n || n == 0
      invariant position == PositionBefore(d, if n == 0 then 0 else i)
      invariant |calls| == n
      invariant forall j :: 0 <= j < i && j < n ==> calls[j] == if j >= 1 then CallAt(d, j) else None
      invariant forall j :: i <= j < n ==> calls[j] == None
    {
      var close := d.bars[i - 1].close;
      var high, low := d.bars[i].high, d.bars[i].low;
      if position == 0 && Gt(Some(close), d.upBand[i - 1]) && Ge(Some(high), d.buyPoint[i - 1]) {
        calls := calls[i := Some(1)];
        position := 1;
      } else if position == 1 && Le(Some(low), d.liqPoint[i - 1]) {
        calls := calls[i := Some(0)];
        position := 0;
      } else if position == 1 && Lt(Some(close), d.dnBand[i - 1]) && Le(Some(low), d.sellPoint[i - 1]) {
        calls := calls[i := Some(0)];
        position := 0;
      }
      i := i + 1;
    }
    if position == 1 {
      calls := calls[n - 1 := Some(0)];
    }
    assert position == PositionBefore(d, n);
    assert calls == ForceClose(LoopColumn(d), position == 1, 0);
    return Produced(calls);
  }

  // ===================== properties =====================

  /** The book is always flat or long. */
  lemma {:induction false} PositionShape(d: Indicators, i: int)
    requires WellShaped(d) && 0 <= i <= |d.bars|
    ensures PositionBefore(d, i) in {0, 1}
    decreases i
  {
    if i > 1 {
      PositionShape(d, i - 1);
    }
  }

  /** A long entry is written exactly when the book is flat and the breakout conditions hold. */
  lemma EntryExactly(d: Indicators, i: int)
    requires WellShaped(d) && 1 <= i < |d.bars|
    ensures CallAt(d, i) == Some(1) <==>
      PositionBefore(d, i) == 0 && Gt(Some(d.bars[i - 1].close), d.upBand[i - 1]) && Ge(Some(d.bars[i].high), d.buyPoint[i - 1])
  {
    PositionShape(d, i);
  }

  /** An exit is written exactly when the book is long and either exit rule holds. */
  lemma ExitExactly(d: Indicators, i: int)
    requires WellShaped(d) && 1 <= i < |d.bars|
    ensures CallAt(d, i) == Some(0) <==>
      PositionBefore(d, i) == 1 &&
      (Le(Some(d.bars[i].low), d.liqPoint[i - 1]) ||
       (Lt(Some(d.bars[i - 1].close), d.dnBand[i - 1]) && Le(Some(d.bars[i].low), d.sellPoint[i - 1])))
  {
    PositionShape(d, i);
  }

  /**
   * On a frame from the indicator pass, an entry on bar `i` needs the
   * channel of bar `i - 1` to be defined (its window fits) and the previous
   * close to be above the mid line.
   */
  lemma EntryAboveMidLine(p: Params, d: Indicators, stdDev: Column, i: int)
    requires FromIndicatorPass(p, d, stdDev) && 1 <= i < |d.bars|
    requires p.bolBandTrig >= 0.0 && forall k :: 0 <= k < |stdDev| && stdDev[k].Some? ==> stdDev[k].value >= 0.0
    requires CallAt(d, i) == Some(1)
    ensures i - 1 >= d.lookBackDays[i - 1] - 1
    ensures d.midLine[i - 1].Some? && d.bars[i - 1].close > d.midLine[i - 1].value
  {
    var k := i - 1;
    EntryExactly(d, i);
    ChannelOfPass(p, d, stdDev, k);
    BandsOfPass(p, d, stdDev, k);
    AboveMidOfEntry(d.bars[k].close, d.midLine[k], d.band[k], d.upBand[k], stdDev[k], p.bolBandTrig);
  }

  /** The mid-line step of `EntryAboveMidLine`, on the values of one bar. */
  lemma AboveMidOfEntry(x: real, mid: Option<real>, band: Option<real>, up: Option<real>, sd: Option<real>, trig: real)
    requires trig >= 0.0 && (sd.Some? ==> sd.value >= 0.0) && (band.Some? ==> band == sd)
    requires up == Add(mid, Mul(Some(trig), band)) && Gt(Some(x), up)
    ensures mid.Some? && x > mid.value
  {
    AboveUpperBandIsAboveMid(x, mid, band, trig);
  }

  /** An entry bar's high is at or above every high of the previous bar's window, the previous bar's own included. */
  lemma EntryReachesPreviousHigh(p: Params, d: Indicators, stdDev: Column, i: int)
    requires FromIndicatorPass(p, d, stdDev) && 1 <= i < |d.bars|
    requires CallAt(d, i) == Some(1)
    ensures d.buyPoint[i - 1].Some? && d.bars[i].high >= d.buyPoint[i - 1].value >= d.bars[i - 1].high
  {
    EntryExactly(d, i);
    ChannelOfPass(p, d, stdDev, i - 1);
  }

  /** The mid-line exit fires on any bar whose low reaches the previous mid line, whatever the bands say. */
  lemma LiquidationFirst(d: Indicators, i: int)
    requires WellShaped(d) && 1 <= i < |d.bars|
    requires PositionBefore(d, i) == 1 && Le(Some(d.bars[i].low), d.liqPoint[i - 1])
    ensures CallAt(d, i) == Some(0) && PositionBefore(d, i + 1) == 0
  {
  }

  /** The position held when each bar begins, and after the last. */
  function Positions(d: Indicators): (r: seq<int>)
    requires WellShaped(d)
    ensures |r| == |d.bars| + 1
  {
    seq(|d.bars| + 1, j requires 0 <= j <= |d.bars| => PositionBefore(d, j))
  }

  lemma PositionsAt(d: Indicators, j: int)
    requires WellShaped(d) && 0 <= j <= |d.bars|
    ensures Positions(d)[j] == PositionBefore(d, j)
  {
  }

  /** Bar `j` carries exactly the code of the position change across it. */
  lemma CallIsTransition(d: Indicators, j: int)
    requires WellShaped(d) && 1 <= j < |d.bars|
    ensures CallAt(d, j) == Transition(PositionBefore(d, j), PositionBefore(d, j + 1), 1, 1, 0)
  {
    PositionShape(d, j);
    assert PositionBefore(d, j + 1) == Step(d, PositionBefore(d, j), j).0;
  }

  lemma PositionAt(d: Indicators, j: int)
    requires WellShaped(d) && 0 <= j <= |d.bars|
    ensures Positions(d)[j] == 0 || Positions(d)[j] == 1
  {
    PositionShape(d, j);
  }

  lemma ColumnAt(d: Indicators, j: int)
    requires WellShaped(d) && 0 <= j < |d.bars|
    ensures LoopColumn(d)[j] == Transition(Positions(d)[j], Positions(d)[j + 1], 1, 1, 0)
  {
    if j >= 1 {
      CallIsTransition(d, j);
    }
    PositionsAt(d, j);
    PositionsAt(d, j + 1);
  }

  lemma LoopFollowsPositions(d: Indicators)
    requires WellShaped(d)
    ensures Follows(LoopColumn(d), Positions(d), 1, 1, 0)
  {
    forall j | 0 <= j <= |d.bars| ensures Positions(d)[j] == 0 || Positions(d)[j] == 1 {
      PositionAt(d, j);
    }
    forall j | 0 <= j < |d.bars| ensures LoopColumn(d)[j] == Transition(Positions(d)[j], Positions(d)[j + 1], 1, 1, 0) {
      ColumnAt(d, j);
    }
  }

  /** Unless an entry lands on the last bar, the returned column alternates entry/exit and ends flat. */
  lemma NetFlat(p: Params, d: Indicators)
    requires WellShaped(d) && |d.bars| >= p.floorAmt
    requires |d.bars| > 0 ==> LoopColumn(d)[|d.bars| - 1] != Some(1)
    ensures Signals(p, d).Produced?
    ensures Alternating(Codes(Signals(p, d).value), 1, 0) && |Codes(Signals(p, d).value)| % 2 == 0
  {
    LoopFollowsPositions(d);
    ForcedCloseBalances(LoopColumn(d), Positions(d), 1, 1, 0);
  }

  /** An entry on the last bar is overwritten by the forced close: the column ends with an unmatched exit. */
  lemma LastBarEntryOverwritten(p: Params, d: Indicators)
    requires WellShaped(d) && |d.bars| >= p.floorAmt && |d.bars| >= 2
    requires CallAt(d, |d.bars| - 1) == Some(1)
    ensures Signals(p, d).Produced? && Signals(p, d).value[|d.bars| - 1] == Some(0)
    ensures Codes(Signals(p, d).value) == Codes(LoopColumn(d)[..|d.bars| - 1]) + [0]
  {
    assert PositionBefore(d, |d.bars|) == 1 by {
      CallIsTransition(d, |d.bars| - 1);
    }
    CodesOfLastWrite(LoopColumn(d), 0);
  }
}
