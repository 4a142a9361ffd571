/*
 * The indicator pass shared by DynamicBreakOutII_L and DynamicBreakOutII_S:
 * an adaptive lookback that grows and shrinks with the change in volatility,
 * clamped to [floorAmt, ceilingAmt], and the Bollinger and Donchian channels
 * computed over that many trailing bars.
 */
module DynamicBreakOut {
  import opened Wrappers
  import opened Common

  /**
   * `deltaVolatility` at bar `i`: the relative change of today's volatility
   * against yesterday's where today's is positive, NaN read as 0, clipped to
   * [-1, 1].
   */
  function DeltaVolatility(today: Column, i: int): (r: real)
    requires 0 <= i < |today|
    ensures -1.0 <= r <= 1.0
    ensures !Gt(today[i], Some(0.0)) ==> r == 0.0
  {
    var yesterday := Shift(today, 1)[i];
    var raw := if Gt(today[i], Some(0.0)) then Div(Sub(today[i], yesterday), today[i]) else Some(0.0);
    var filled := if raw.Some? then raw.value else 0.0;
    Clip(filled, -1.0, 1.0)
  }

  /** Python's `max(min(x, ceiling), floor)` on integers. */
  function Clamp(x: int, floor: int, ceiling: int): (r: int)
    ensures r >= floor
    ensures floor <= ceiling ==> r <= ceiling
    ensures floor <= x <= ceiling ==> r == x
  {
    var capped := if ceiling < x then ceiling else x;
    if floor > capped then floor else capped
  }

  /** One step of the lookback: `max(min(int(round(prev * (1 + delta))), ceiling), floor)`. */
  function NextLookBack(prev: int, delta: real, floor: int, ceiling: int): (r: int)
    ensures r >= floor
    ensures floor <= ceiling ==> r <= ceiling
    ensures var v := RoundHalfEven(prev as real * (1.0 + delta));
      floor <= ceiling ==> r == (if v < floor then floor else if v > ceiling then ceiling else v)
    ensures floor > ceiling ==> r == floor
  {
    Clamp(RoundHalfEven(prev as real * (1.0 + delta)), floor, ceiling)
  }

  /** `lookBackDays[i]`: 20 on the first bar, then the previous value scaled by 1 + delta, rounded and clamped. */
  function LookBack(delta: seq<real>, floor: int, ceiling: int, i: nat): int
    requires i < |delta|
  {
    if i == 0 then 20 else NextLookBack(LookBack(delta, floor, ceiling, i - 1), delta[i], floor, ceiling)
  }

  /** The lookback loop, updating the series of 20s in place from bar 1 on. */
  method ComputeLookBack(delta: seq<real>, floor: int, ceiling: int) returns (look: seq<int>)
    ensures |look| == |delta|
    ensures forall i :: 0 <= i < |delta| ==> look[i] == LookBack(delta, floor, ceiling, i)
    ensures |delta| > 0 ==> look[0] == 20
    ensures forall i :: 1 <= i < |delta| ==> floor <= look[i] && (floor <= ceiling ==> look[i] <= ceiling)
  {
    look := seq(|delta|, _ => 20);
    if |delta| == 0 {
      return;
    }
    var i := 1;
    while i < |delta|
      invariant 1 <= i <= |delta|
      invariant |look| == |delta|
      invariant forall k :: 0 <= k < i && k < |delta| ==> look[k] == LookBack(delta, floor, ceiling, k)
      invariant forall k :: i <= k < |delta| ==> look[k] == 20
    {
      var next := NextLookBack(look[i - 1], delta[i], floor, ceiling);
      assert next == LookBack(delta, floor, ceiling, i);
      look := look[i := next];
      i := i + 1;
    }
  }

  /** Every lookback is at least 1 when the floor is: the first is 20, the rest are clamped from below. */
  lemma LookBackPositive(delta: seq<real>, floor: int, ceiling: int, i: nat)
    requires i < |delta| && floor >= 1
    ensures LookBack(delta, floor, ceiling, i) >= 1
  {
  }

  /** The channel values of one bar: NaN until the window of `lookBackDays[i]` bars fits. */
  datatype ChannelRow = ChannelRow(midLine: Option<real>, band: Option<real>, buyPoint: Option<real>, sellPoint: Option<real>)

  /**
   * Bar `i`'s channel over the trailing `p = lookBackDays[i]` bars: mean of
   * the closes, highest high, lowest low, and the window's standard deviation
   * (taken from the `stdDev` input, computed by a library routine).
   */
  function Channel(bars: seq<Bar>, look: seq<int>, stdDev: Column, i: int): (r: ChannelRow)
    requires |look| == |bars| == |stdDev| && 0 <= i < |bars| && look[i] >= 1
    ensures r.buyPoint.Some? <==> i >= look[i] - 1
    ensures r.buyPoint.Some? ==> r.midLine.Some? && r.sellPoint.Some? && r.band == stdDev[i]
    ensures r.buyPoint.Some? ==> r.buyPoint.value >= bars[i].high && r.sellPoint.value <= bars[i].low
    ensures r.buyPoint.None? ==> r == ChannelRow(None, None, None, None)
  {
    var p := look[i];
    if i >= p - 1 then
      ChannelRow(Some(Mean(Window(Closes(bars), i, p))), stdDev[i],
                 Some(Max(Window(Highs(bars), i, p))), Some(Min(Window(Lows(bars), i, p))))
    else ChannelRow(None, None, None, None)
  }

  datatype ChannelColumns = ChannelColumns(midLine: Column, band: Column, buyPoint: Column, sellPoint: Column)

  predicate IsChannelColumns(bars: seq<Bar>, look: seq<int>, stdDev: Column, c: ChannelColumns)
    requires |look| == |bars| == |stdDev| && forall k :: 0 <= k < |look| ==> look[k] >= 1
  {
    |c.midLine| == |bars| && |c.band| == |bars| && |c.buyPoint| == |bars| && |c.sellPoint| == |bars| &&
    forall k :: 0 <= k < |bars| ==>
      ChannelRow(c.midLine[k], c.band[k], c.buyPoint[k], c.sellPoint[k]) == Channel(bars, look, stdDev, k)
  }

  /** The per-bar channel loop, writing the four columns where the window fits. */
  method ComputeChannels(bars: seq<Bar>, look: seq<int>, stdDev: Column) returns (c: ChannelColumns)
    requires |look| == |bars| == |stdDev| && forall k :: 0 <= k < |look| ==> look[k] >= 1
    ensures IsChannelColumns(bars, look, stdDev, c)
  {
    var n := |bars|;
    var mid, band, buy, sell: Column := seq(n, _ => None), seq(n, _ => None), seq(n, _ => None), seq(n, _ => None);
    var i := 0;
    while i < n
      invariant 0 <= i <= n
      invariant |mid| == n && |band| == n && |buy| == n && |sell| == n
      invariant forall k :: 0 <= k < i ==> ChannelRow(mid[k], band[k], buy[k], sell[k]) == Channel(bars, look, stdDev, k)
      invariant forall k :: i <= k < n ==> mid[k].None? && band[k].None? && buy[k].None? && sell[k].None?
    {
      var period := look[i];
      if i >= period - 1 {
        var row := ChannelRow(Some(Mean(Closes(bars)[i - period + 1 .. i + 1])), stdDev[i],
                              Some(Max(Highs(bars)[i - period + 1 .. i + 1])), Some(Min(Lows(bars)[i - period + 1 .. i + 1])));
        assert row == Channel(bars, look, stdDev, i);
        mid, band, buy, sell := mid[i := row.midLine], band[i := row.band], buy[i := row.buyPoint], sell[i := row.sellPoint];
      } else {
        assert Channel(bars, look, stdDev, i) == ChannelRow(None, None, None, None);
      }
      i := i + 1;
    }
    c := ChannelColumns(mid, band, buy, sell);
  }

  /** `upBand`, `dnBand`: the mid line plus and minus `bolBandTrig` bands. */
  function UpBand(mid: Column, band: Column, trig: real): (r: Column)
    requires |mid| == |band|
    ensures |r| == |mid|
  {
    seq(|mid|, k requires 0 <= k < |mid| => Add(mid[k], Mul(Some(trig), band[k])))
  }

  function DnBand(mid: Column, band: Column, trig: real): (r: Column)
    requires |mid| == |band|
    ensures |r| == |mid|
  {
    seq(|mid|, k requires 0 <= k < |mid| => Sub(mid[k], Mul(Some(trig), band[k])))
  }

  /** Where the channel is defined the bands are `2·bolBandTrig·Band` apart, centred on the mid line (which is also `LiqPoint`). */
  lemma BandsAroundMidLine(mid: Column, band: Column, trig: real, k: int)
    requires |mid| == |band| && 0 <= k < |mid| && mid[k].Some? && band[k].Some?
    ensures UpBand(mid, band, trig)[k].Some? && DnBand(mid, band, trig)[k].Some?
    ensures UpBand(mid, band, trig)[k].value - DnBand(mid, band, trig)[k].value == 2.0 * trig * band[k].value
    ensures UpBand(mid, band, trig)[k].value + DnBand(mid, band, trig)[k].value == 2.0 * mid[k].value
  {
  }

  // ----- the whole indicator pass -----

  /** The parameters both DynamicBreakOutII strategies read. */
  datatype Params = Params(ceilingAmt: int, floorAmt: int, bolBandTrig: real, lots: real)

  const Defaults := Params(60, 20, 2.0, 1.0)

  /** The frame `calculate_indicators` returns (the input bars plus the derived columns). */
  datatype Indicators = Indicators(bars: seq<Bar>, lookBackDays: seq<int>, midLine: Column, band: Column,
                                   buyPoint: Column, sellPoint: Column, upBand: Column, dnBand: Column, liqPoint: Column)

  predicate WellShaped(d: Indicators)
  {
    |d.lookBackDays| == |d.bars| && |d.midLine| == |d.bars| && |d.band| == |d.bars| &&
    |d.buyPoint| == |d.bars| && |d.sellPoint| == |d.bars| && |d.upBand| == |d.bars| &&
    |d.dnBand| == |d.bars| && |d.liqPoint| == |d.bars|
  }

  /** The `deltaVolatility` column. */
  function DeltaColumn(todayVol: Column): (r: seq<real>)
    ensures |r| == |todayVol|
  {
    seq(|todayVol|, i requires 0 <= i < |todayVol| => DeltaVolatility(todayVol, i))
  }

  /**
   * `calculate_indicators`: `todayVol` is the 30-bar standard deviation of
   * the closes and `stdDev[i]` the standard deviation of bar `i`'s window,
   * both from the library routine `StandardDev`.
   */
  method CalculateIndicators(p: Params, bars: seq<Bar>, todayVol: Column, stdDev: Column) returns (d: Indicators)
    requires |todayVol| == |bars| && |stdDev| == |bars| && p.floorAmt >= 1
    ensures WellShaped(d) && d.bars == bars
    ensures forall i :: 0 <= i < |bars| ==> d.lookBackDays[i] == LookBack(DeltaColumn(todayVol), p.floorAmt, p.ceilingAmt, i)
    ensures forall i :: 0 <= i < |bars| ==> d.lookBackDays[i] >= 1
    ensures IsChannelColumns(bars, d.lookBackDays, stdDev, ChannelColumns(d.midLine, d.band, d.buyPoint, d.sellPoint))
    ensures d.upBand == UpBand(d.midLine, d.band, p.bolBandTrig) && d.dnBand == DnBand(d.midLine, d.band, p.bolBandTrig)
    ensures d.liqPoint == d.midLine
  {
    var delta := DeltaColumn(todayVol);
    var look := ComputeLookBack(delta, p.floorAmt, p.ceilingAmt);
    forall i | 0 <= i < |bars|
      ensures look[i] >= 1
    {
      LookBackPositive(delta, p.floorAmt, p.ceilingAmt, i);
    }
    var c := ComputeChannels(bars, look, stdDev);
    d := Indicators(bars, look, c.midLine, c.band, c.buyPoint, c.sellPoint,
                    UpBand(c.midLine, c.band, p.bolBandTrig), DnBand(c.midLine, c.band, p.bolBandTrig), c.midLine);
  }

  /**
   * A frame the indicator pass produced: the channel columns follow the
   * lookback and the bands surround the mid line by the standard deviation
   * times `bolBandTrig`, which is non-negative as a deviation is.
   */
  predicate FromIndicatorPass(p: Params, d: Indicators, stdDev: Column)
  {
    WellShaped(d) && |stdDev| == |d.bars| &&
    (forall i :: 0 <= i < |d.bars| ==> d.lookBackDays[i] >= 1) &&
    IsChannelColumns(d.bars, d.lookBackDays, stdDev, ChannelColumns(d.midLine, d.band, d.buyPoint, d.sellPoint)) &&
    d.upBand == UpBand(d.midLine, d.band, p.bolBandTrig) && d.dnBand == DnBand(d.midLine, d.band, p.bolBandTrig) &&
    d.liqPoint == d.midLine
  }

  /** Bar `k` of a frame from the indicator pass, read through the channel's own properties. */
  lemma ChannelOfPass(p: Params, d: Indicators, stdDev: Column, k: int)
    requires FromIndicatorPass(p, d, stdDev) && 0 <= k < |d.bars|
    ensures d.midLine[k].Some? || d.band[k].Some? || d.buyPoint[k].Some? || d.sellPoint[k].Some? ==> k >= d.lookBackDays[k] - 1
    ensures k >= d.lookBackDays[k] - 1 ==> d.midLine[k].Some? && d.band[k] == stdDev[k] && d.buyPoint[k].Some? && d.sellPoint[k].Some?
    ensures d.buyPoint[k].Some? ==> d.buyPoint[k].value >= d.bars[k].high
    ensures d.sellPoint[k].Some? ==> d.sellPoint[k].value <= d.bars[k].low
  {
    var row := Channel(d.bars, d.lookBackDays, stdDev, k);
    assert ChannelRow(d.midLine[k], d.band[k], d.buyPoint[k], d.sellPoint[k]) == row;
  }

  /** Bar `k`'s bands in a frame from the indicator pass. */
  lemma BandsOfPass(p: Params, d: Indicators, stdDev: Column, k: int)
    requires FromIndicatorPass(p, d, stdDev) && 0 <= k < |d.bars|
    ensures d.upBand[k] == Add(d.midLine[k], Mul(Some(p.bolBandTrig), d.band[k]))
    ensures d.dnBand[k] == Sub(d.midLine[k], Mul(Some(p.bolBandTrig), d.band[k]))
  {
  }

  /** A value above the upper band is above the mid line, the band being a non-negative width. */
  lemma AboveUpperBandIsAboveMid(x: real, mid: Option<real>, band: Option<real>, trig: real)
    requires trig >= 0.0 && (band.Some? ==> band.value >= 0.0)
    requires Gt(Some(x), Add(mid, Mul(Some(trig), band)))
    ensures mid.Some? && x > mid.value
  {
    MulNonNegative(trig, band.value);
  }

  /** A value below the lower band is below the mid line. */
  lemma BelowLowerBandIsBelowMid(x: real, mid: Option<real>, band: Option<real>, trig: real)
    requires trig >= 0.0 && (band.Some? ==> band.value >= 0.0)
    requires Lt(Some(x), Sub(mid, Mul(Some(trig), band)))
    ensures mid.Some? && x < mid.value
  {
    MulNonNegative(trig, band.value);
  }
}
