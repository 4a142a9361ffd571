/*
 * GhostTrader_S: a short-only system that trades "in its head" first. Every
 * short entry is simulated; a real entry (-1) is emitted only while the last
 * simulated or real round trip lost money. Exits (0) are emitted for real and
 * simulated shorts alike. Indicators: two exponential averages (inputs), the
 * TradeBlazer RSI computed by a Wilder recurrence, and a 20-bar Donchian
 * high (input). Codes: -1 entry, 0 exit, NaN elsewhere.
 */
module GhostTraderS {
  import opened Wrappers
  import opened Common
  import opened Events

  datatype Params = Params(fastLength: nat, slowLength: nat, length: nat, overSold: real, overBought: real, lots: real)

  const Defaults := Params(9, 19, 9, 30.0, 70.0, 1.0)

  /** The Donchian window of `ExitHiBand` / `ExitLoBand`. */
  const BandLength: nat := 20

  // ===================== the RSI recurrence =====================

  /** `close[k] - close[k-1]`. */
  function Change(closes: seq<real>, k: int): real
    requires 1 <= k < |closes|
  {
    closes[k] - closes[k - 1]
  }

  /** Sum of `|close[k] - close[k-1]|` over `k` in `lo .. hi - 1`. */
  function AbsChangeSum(closes: seq<real>, lo: int, hi: int): real
    requires 1 <= lo <= hi <= |closes|
    decreases hi - lo
  {
    if lo == hi then 0.0 else AbsChangeSum(closes, lo, hi - 1) + Abs(Change(closes, hi - 1))
  }

  /** `NetChgAvg` at bar `i >= Length`: the average change since bar 0, then Wilder smoothing with `sf = 1/Length`. */
  function NetChgAvg(closes: seq<real>, len: nat, i: int): real
    requires 1 <= len <= i < |closes|
    decreases i
  {
    if i == len then (closes[i] - closes[0]) / (len as real)
    else Wilder(NetChgAvg(closes, len, i - 1), Change(closes, i), 1.0 / (len as real))
  }

  /** `TotChgAvg` at bar `i >= Length`: the mean absolute change over bars 1 .. Length, then Wilder smoothing. */
  function TotChgAvg(closes: seq<real>, len: nat, i: int): real
    requires 1 <= len <= i < |closes|
    decreases i
  {
    if i == len then AbsChangeSum(closes, 1, len + 1) / (len as real)
    else Wilder(TotChgAvg(closes, len, i - 1), Abs(Change(closes, i)), 1.0 / (len as real))
  }

  /** `ChgRatio`: the ratio of the two averages, 0 where the total is 0. */
  function ChgRatio(net: real, tot: real): real
  {
    if tot != 0.0 then net / tot else 0.0
  }

  function RsiValue(ratio: real): real
  {
    50.0 * (ratio + 1.0)
  }

  function RsiAt(closes: seq<real>, len: nat, i: int): real
    requires 1 <= len <= i < |closes|
  {
    RsiValue(ChgRatio(NetChgAvg(closes, len, i), TotChgAvg(closes, len, i)))
  }

  /** The four RSI columns `calculate_indicators` writes. */
  datatype RsiColumns = RsiColumns(netChgAvg: Column, totChgAvg: Column, chgRatio: Column, rsiValue: Column)

  /** The columns once the loop has written bars `Length .. upto`; NaN elsewhere. */
  function RsiThrough(closes: seq<real>, len: nat, upto: int): RsiColumns
    requires 1 <= len
  {
    var n := |closes|;
    RsiColumns(
      seq(n, k requires 0 <= k < n => if len <= k <= upto then Some(NetChgAvg(closes, len, k)) else None),
      seq(n, k requires 0 <= k < n => if len <= k <= upto then Some(TotChgAvg(closes, len, k)) else None),
      seq(n, k requires 0 <= k < n => if len <= k <= upto then Some(ChgRatio(NetChgAvg(closes, len, k), TotChgAvg(closes, len, k))) else None),
      seq(n, k requires 0 <= k < n => if len <= k <= upto then Some(RsiAt(closes, len, k)) else None))
  }

  /** Writing bar `i`'s row into the columns through bar `i - 1` gives the columns through bar `i`. */
  lemma RsiThroughStep(closes: seq<real>, len: nat, i: int)
    requires 1 <= len <= i < |closes|
    ensures var c := RsiThrough(closes, len, i - 1);
      var net, tot := NetChgAvg(closes, len, i), TotChgAvg(closes, len, i);
      RsiThrough(closes, len, i) == RsiColumns(c.netChgAvg[i := Some(net)], c.totChgAvg[i := Some(tot)],
        c.chgRatio[i := Some(ChgRatio(net, tot))], c.rsiValue[i := Some(RsiAt(closes, len, i))])
  {
  }

  /** The two smoothed averages of one row: the seed at bar Length or a Wilder step from the previous row. */
  method RsiAverages(closes: seq<real>, len: nat, i: int, prevNet: real, prevTot: real) returns (net: real, tot: real)
    requires 1 <= len <= i < |closes|
    requires i > len ==> prevNet == NetChgAvg(closes, len, i - 1) && prevTot == TotChgAvg(closes, len, i - 1)
    ensures net == NetChgAvg(closes, len, i) && tot == TotChgAvg(closes, len, i)
  {
    if i == len {
      net := (closes[i] - closes[0]) / (len as real);
      tot := AbsChangeSum(closes, 1, i + 1) / (len as real);
    } else {
      var sf := 1.0 / (len as real);
      var change := closes[i] - closes[i - 1];
      assert change == Change(closes, i);
      net := Wilder(prevNet, change, sf);
      tot := Wilder(prevTot, Abs(change), sf);
    }
  }

  /** One row of the RSI loop: the two averages, then the ratio and the RSI value. */
  method RsiRow(closes: seq<real>, len: nat, i: int, prevNet: real, prevTot: real)
    returns (net: real, tot: real, ratio: real, rsi: real)
    requires 1 <= len <= i < |closes|
    requires i > len ==> prevNet == NetChgAvg(closes, len, i - 1) && prevTot == TotChgAvg(closes, len, i - 1)
    ensures net == NetChgAvg(closes, len, i) && tot == TotChgAvg(closes, len, i)
    ensures ratio == ChgRatio(net, tot) && rsi == RsiAt(closes, len, i)
  {
    net, tot := RsiAverages(closes, len, i, prevNet, prevTot);
    if tot != 0.0 {
      ratio := net / tot;
    } else {
      ratio := 0.0;
    }
    rsi := 50.0 * (ratio + 1.0);
  }

  /** The RSI loop of `calculate_indicators` over bars `Length .. n - 1`, reading back the previous row it wrote. */
  method RsiLoop(closes: seq<real>, len: nat) returns (c: RsiColumns)
    requires 1 <= len
    ensures c == RsiThrough(closes, len, |closes| - 1)
  {
    var n := |closes|;
    var nan: Column := seq(n, _ => None);
    var net, tot, ratio, rsi := nan, nan, nan, nan;
    var i := len;
    assert RsiColumns(nan, nan, nan, nan) == RsiThrough(closes, len, len - 1);
    while i < n
      invariant len <= i || n <= len
      invariant RsiColumns(net, tot, ratio, rsi) == RsiThrough(closes, len, i - 1)
    {
      var prevNet, prevTot := 0.0, 0.0;
      if i > len {
        assert net[i - 1] == Some(NetChgAvg(closes, len, i - 1)) && tot[i - 1] == Some(TotChgAvg(closes, len, i - 1));
        prevNet, prevTot := net[i - 1].value, tot[i - 1].value;
      }
      var x, y, r, v := RsiRow(closes, len, i, prevNet, prevTot);
      RsiThroughStep(closes, len, i);
      net, tot, ratio, rsi := net[i := Some(x)], tot[i := Some(y)], ratio[i := Some(r)], rsi[i := Some(v)];
      i := i + 1;
    }
    c := RsiColumns(net, tot, ratio, rsi);
    if n <= len {
      assert RsiThrough(closes, len, i - 1) == RsiThrough(closes, len, n - 1);
    }
  }

  /**
   * `calculate_indicators`: writes the averages, the RSI columns and the
   * Donchian bands into the caller's frame.
   */
  method CalculateIndicators(f: Frame, p: Params, bars: seq<Bar>, avg1: Column, avg2: Column, exitHi: Column, exitLo: Column)
    requires f.Valid() && f.length == |bars| && 1 <= p.length
    requires |avg1| == |bars| && |avg2| == |bars| && |exitHi| == |bars| && |exitLo| == |bars|
    modifies f
    ensures f.Valid() && f.length == old(f.length) && f.flag == old(f.flag)
    ensures var c := RsiThrough(Closes(bars), p.length, |bars| - 1);
      f.num == old(f.num)["AvgValue1" := avg1]["AvgValue2" := avg2]
        ["NetChgAvg" := c.netChgAvg]["TotChgAvg" := c.totChgAvg]["ChgRatio" := c.chgRatio]["RSIValue" := c.rsiValue]
        ["ExitHiBand" := exitHi]["ExitLoBand" := exitLo]
  {
    f.num := f.num["AvgValue1" := avg1]["AvgValue2" := avg2];
    var c := RsiLoop(Closes(bars), p.length);
    f.num := f.num["NetChgAvg" := c.netChgAvg]["TotChgAvg" := c.totChgAvg]["ChgRatio" := c.chgRatio]["RSIValue" := c.rsiValue];
    f.num := f.num["ExitHiBand" := exitHi]["ExitLoBand" := exitLo];
  }

  // ----- the RSI bounds -----

  /** The net move since bar 0 is at most the summed absolute changes (telescoping and the triangle inequality). */
  lemma {:induction false} NetMoveWithinPath(closes: seq<real>, j: int)
    requires 1 <= j < |closes|
    ensures Abs(closes[j] - closes[0]) <= AbsChangeSum(closes, 1, j + 1)
    decreases j
  {
    if j > 1 {
      NetMoveWithinPath(closes, j - 1);
    }
  }

  lemma QuotientKeepsBound(a: real, b: real, len: real)
    requires Abs(a) <= b && len > 0.0
    ensures Abs(a / len) <= b / len
  {
    QuotientMonotone(a, b, len);
    QuotientMonotone(-a, b, len);
    assert -a / len == -(a / len);
  }

  lemma QuotientMonotone(a: real, b: real, len: real)
    requires a <= b && len > 0.0
    ensures a / len <= b / len
  {
    assert a / len * len == a;
    assert b / len * len == b;
    assert (b - a) / len * len == b - a;
    assert b / len - a / len == (b - a) / len;
  }

  /** A Wilder step keeps `|net| <= tot`: both averages move the same fraction towards `change` and `|change|`. */
  lemma WilderKeepsBound(net: real, tot: real, change: real, sf: real)
    requires 0.0 <= sf <= 1.0 && Abs(net) <= tot
    ensures Abs(Wilder(net, change, sf)) <= Wilder(tot, Abs(change), sf)
  {
    var u := 1.0 - sf;
    MulNonNegative(u, tot - net);
    MulNonNegative(u, tot + net);
    MulNonNegative(sf, Abs(change) - change);
    MulNonNegative(sf, Abs(change) + change);
    assert Wilder(net, change, sf) == u * net + sf * change;
    assert Wilder(tot, Abs(change), sf) == u * tot + sf * Abs(change);
  }

  /** `|NetChgAvg| <= TotChgAvg` on every bar the loop writes. */
  lemma {:induction false} NetWithinTotal(closes: seq<real>, len: nat, i: int)
    requires 1 <= len <= i < |closes|
    ensures Abs(NetChgAvg(closes, len, i)) <= TotChgAvg(closes, len, i)
    decreases i
  {
    if i == len {
      NetMoveWithinPath(closes, len);
      QuotientKeepsBound(closes[len] - closes[0], AbsChangeSum(closes, 1, len + 1), len as real);
    } else {
      NetWithinTotal(closes, len, i - 1);
      var sf := 1.0 / (len as real);
      assert 0.0 < sf <= 1.0 by {
        assert sf * (len as real) == 1.0;
      }
      WilderKeepsBound(NetChgAvg(closes, len, i - 1), TotChgAvg(closes, len, i - 1), Change(closes, i), sf);
    }
  }

  lemma RatioBounded(net: real, tot: real)
    requires Abs(net) <= tot
    ensures -1.0 <= ChgRatio(net, tot) <= 1.0
    ensures 0.0 <= RsiValue(ChgRatio(net, tot)) <= 100.0
    ensures tot == 0.0 ==> RsiValue(ChgRatio(net, tot)) == 50.0
  {
    if tot != 0.0 {
      QuotientKeepsBound(net, tot, tot);
      assert tot / tot == 1.0;
    }
  }

  /** The RSI lies in [0, 100], and is exactly 50 on a bar whose total average is 0. */
  lemma RsiBounded(closes: seq<real>, len: nat, i: int)
    requires 1 <= len <= i < |closes|
    ensures 0.0 <= RsiAt(closes, len, i) <= 100.0
    ensures TotChgAvg(closes, len, i) == 0.0 ==> RsiAt(closes, len, i) == 50.0
  {
    NetWithinTotal(closes, len, i);
    RatioBounded(NetChgAvg(closes, len, i), TotChgAvg(closes, len, i));
  }

  /** The `RSIValue` column is NaN before bar Length and within [0, 100] from there on. */
  lemma RsiColumnBounded(closes: seq<real>, len: nat, k: int)
    requires 1 <= len && 0 <= k < |closes|
    ensures var r := RsiThrough(closes, len, |closes| - 1).rsiValue[k];
      (k < len ==> r.None?) && (k >= len ==> r.Some? && 0.0 <= r.value <= 100.0)
  {
    if k >= len {
      RsiBounded(closes, len, k);
    }
  }

  // ===================== signals: the ghost-trade short machine =====================

  /** The frame the loop reads. */
  datatype Data = Data(bars: seq<Bar>, avg1: Column, avg2: Column, rsi: Column, exitHi: Column)

  predicate Valid(d: Data)
  {
    |d.avg1| == |d.bars| && |d.avg2| == |d.bars| && |d.rsi| == |d.bars| && |d.exitHi| == |d.bars|
  }

  /** The book (real or simulated), the open trade's entry price, and the last round trip's profit. */
  datatype State = State(position: int, entryPrice: Option<real>, profit: real)

  const Init := State(0, None, 0.0)

  /** Short exit: the high reaches the previous Donchian high. */
  predicate ExitCondition(d: Data, i: int)
    requires Valid(d) && 1 <= i < |d.bars|
  {
    Ge(Some(d.bars[i].high), d.exitHi[i - 1])
  }

  /** Short setup: fast average below slow, RSI above the oversold level, and a low at or below the previous low. */
  predicate EntryCondition(p: Params, d: Data, i: int)
    requires Valid(d) && 1 <= i < |d.bars|
  {
    Lt(d.avg1[i - 1], d.avg2[i - 1]) && Gt(d.rsi[i - 1], Some(p.overSold)) && d.bars[i].low <= d.bars[i - 1].low
  }

  /** The fill of an exit: the open or the band, whichever is higher. */
  function ExitPrice(d: Data, i: int): real
    requires Valid(d) && 1 <= i < |d.bars| && ExitCondition(d, i)
  {
    PyMax(Some(d.bars[i].open), d.exitHi[i - 1]).value
  }

  /** The fill of an entry: the open or the previous low, whichever is lower. */
  function EntryPrice(d: Data, i: int): real
    requires Valid(d) && 1 <= i < |d.bars|
  {
    PyMin(Some(d.bars[i].open), Some(d.bars[i - 1].low)).value
  }

  /**
   * One iteration of the loop. `prev_position` is assigned the current
   * position at the top of every iteration, so its tests add nothing and
   * the step reads only the position.
   */
  function Step(p: Params, d: Data, st: State, i: int): (State, Option<int>)
    requires Valid(d) && 1 <= i < |d.bars|
  {
    if st.position == -1 && ExitCondition(d, i) then
      var profit := if st.entryPrice.Some? then st.entryPrice.value - ExitPrice(d, i) else 0.0;
      (State(0, None, profit), Some(0))
    else if st.position == 0 && EntryCondition(p, d, i) then
      var entered := State(-1, Some(EntryPrice(d, i)), st.profit);
      if st.profit < 0.0 then (entered, Some(-1)) else (entered, None)
    else (st, None)
  }

  function StateBefore(p: Params, d: Data, i: int): State
    requires Valid(d) && 0 <= i <= |d.bars|
  {
    if i <= 1 then Init else Step(p, d, StateBefore(p, d, i - 1), i - 1).0
  }

  function CallAt(p: Params, d: Data, i: int): Option<int>
    requires Valid(d) && 1 <= i < |d.bars|
  {
    Step(p, d, StateBefore(p, d, i), i).1
  }

  function LoopColumn(p: Params, d: Data): (r: seq<Option<int>>)
    requires Valid(d)
    ensures |r| == |d.bars|
  {
    seq(|d.bars|, j requires 0 <= j < |d.bars| => if j >= 1 then CallAt(p, d, j) else None)
  }

  function MinLength(p: Params): nat
  {
    var m := if p.fastLength >= p.slowLength then p.fastLength else p.slowLength;
    if m >= BandLength then m else BandLength
  }

  /** What `generate_signals` returns: an empty frame below `max(FastLength, SlowLength, 20)` bars. */
  function Signals(p: Params, d: Data): Outcome<seq<Option<int>>>
    requires Valid(d)
  {
    if |d.bars| < MinLength(p) then EmptyFrame
    else Produced(ForceClose(LoopColumn(p, d), StateBefore(p, d, |d.bars|).position == -1, 0))
  }

  method GenerateSignals(p: Params, d: Data) returns (out: Outcome<seq<Option<int>>>)
    requires Valid(d)
    ensures out == Signals(p, d)
  {
    var n := |d.bars|;
    var fastSlow := if p.fastLength >= p.slowLength then p.fastLength else p.slowLength;
    if n < fastSlow || n < BandLength {
      return EmptyFrame;
    }
    var calls: seq<Option<int>> := seq(n, _ => None);
    var position, prevPosition := 0, 0;
    var entryPrice: Option<real> := None;
    var profit := 0.0;
    var i := 1;
    while i < n
      invariant 1 <= i <= n
      invariant State(position, entryPrice, profit) == StateBefore(p, d, i)
      invariant |calls| == n
      invariant forall j :: 0 <= j < i ==> calls[j] == if j >= 1 then CallAt(p, d, j) else None
      invariant forall j :: i <= j < n ==> calls[j] == None
    {
      prevPosition := position;
      var b := d.bars[i];
      if position == -1 && prevPosition == -1 && Ge(Some(b.high), d.exitHi[i - 1]) {
        var exitPrice := PyMax(Some(b.open), d.exitHi[i - 1]).value;
        profit := if entryPrice.Some? then entryPrice.value - exitPrice else 0.0;
        calls := calls[i := Some(0)];
        position := 0;
        entryPrice := None;
      } else if position == 0 && prevPosition == 0 && Lt(d.avg1[i - 1], d.avg2[i - 1]) &&
                Gt(d.rsi[i - 1], Some(p.overSold)) && b.low <= d.bars[i - 1].low {
        entryPrice := PyMin(Some(b.open), Some(d.bars[i - 1].low));
        if profit < 0.0 {
          calls := calls[i := Some(-1)];
          position := -1;
        } else {
          position := -1;
        }
      }
      i := i + 1;
    }
    if position == -1 {
      calls := calls[n - 1 := Some(0)];
    }
    assert calls == ForceClose(LoopColumn(p, d), position == -1, 0);
    return Produced(calls);
  }

  // ===================== properties of the signal machine =====================

  /** The book is flat or short, and a short book always knows its entry price. */
  lemma {:induction false} StateShape(p: Params, d: Data, i: int)
    requires Valid(d) && 0 <= i <= |d.bars|
    ensures StateBefore(p, d, i).position in {0, -1}
    ensures StateBefore(p, d, i).position == -1 <==> StateBefore(p, d, i).entryPrice.Some?
    decreases i
  {
    if i > 1 {
      StateShape(p, d, i - 1);
    }
  }

  /** A real short entry is written exactly when the book is flat, the setup holds and the last round trip lost money. */
  lemma EntryExactly(p: Params, d: Data, i: int)
    requires Valid(d) && 1 <= i < |d.bars|
    ensures CallAt(p, d, i) == Some(-1) <==>
      StateBefore(p, d, i).position == 0 && EntryCondition(p, d, i) && StateBefore(p, d, i).profit < 0.0
  {
    StateShape(p, d, i);
  }

  /** With no loss on record the same setup opens a simulated short: nothing is written, yet the book turns short. */
  lemma SilentEntry(p: Params, d: Data, i: int)
    requires Valid(d) && 1 <= i < |d.bars|
    requires StateBefore(p, d, i).position == 0 && EntryCondition(p, d, i) && StateBefore(p, d, i).profit >= 0.0
    ensures CallAt(p, d, i) == None
    ensures StateBefore(p, d, i + 1).position == -1
    ensures StateBefore(p, d, i + 1).entryPrice == Some(EntryPrice(d, i))
  {
  }

  /**
   * An exit is written exactly when the book, real or simulated, is short and
   * the high reaches the previous band; the round trip's profit is the entry
   * price less the exit fill, which is at or above the band.
   */
  lemma ExitExactly(p: Params, d: Data, i: int)
    requires Valid(d) && 1 <= i < |d.bars|
    ensures CallAt(p, d, i) == Some(0) <==> StateBefore(p, d, i).position == -1 && ExitCondition(d, i)
    ensures CallAt(p, d, i) == Some(0) ==>
      StateBefore(p, d, i).entryPrice.Some? &&
      StateBefore(p, d, i + 1).profit == StateBefore(p, d, i).entryPrice.value - ExitPrice(d, i) &&
      ExitPrice(d, i) >= d.exitHi[i - 1].value && ExitPrice(d, i) >= d.bars[i].open
  {
    StateShape(p, d, i);
  }

  /** The entry fill is at or below the previous low. */
  lemma EntryPriceBelowPreviousLow(d: Data, i: int)
    requires Valid(d) && 1 <= i < |d.bars|
    ensures EntryPrice(d, i) <= d.bars[i - 1].low && EntryPrice(d, i) <= d.bars[i].open
  {
  }

  /** The recorded profit changes only on exit bars: it persists until the next exit. */
  lemma ProfitChangesOnlyAtExits(p: Params, d: Data, i: int)
    requires Valid(d) && 1 <= i < |d.bars|
    requires StateBefore(p, d, i + 1).profit != StateBefore(p, d, i).profit
    ensures CallAt(p, d, i) == Some(0)
  {
  }

  /** Before the first exit the recorded profit is still 0, so no real entry can have been written. */
  lemma {:induction false} NoLossBeforeFirstExit(p: Params, d: Data, i: int)
    requires Valid(d) && 1 <= i <= |d.bars|
    requires forall j :: 1 <= j < i ==> CallAt(p, d, j) != Some(0)
    ensures StateBefore(p, d, i).profit == 0.0
    ensures forall j :: 1 <= j < i ==> CallAt(p, d, j) != Some(-1)
    decreases i
  {
    if i > 1 {
      NoLossBeforeFirstExit(p, d, i - 1);
      if StateBefore(p, d, i).profit != StateBefore(p, d, i - 1).profit {
        ProfitChangesOnlyAtExits(p, d, i - 1);
      }
      EntryExactly(p, d, i - 1);
    }
  }

  /** A short still open after the last bar, real or simulated, is closed by a 0 on the last bar. */
  lemma ForcedCloseWritesExit(p: Params, d: Data)
    requires Valid(d) && MinLength(p) <= |d.bars|
    requires StateBefore(p, d, |d.bars|).position == -1
    ensures Signals(p, d).Produced? && Signals(p, d).value[|d.bars| - 1] == Some(0)
    ensures Signals(p, d).value[..|d.bars| - 1] == LoopColumn(p, d)[..|d.bars| - 1]
  {
  }

  /** A real entry on the last bar is overwritten by the forced close. */
  lemma LastBarEntryOverwritten(p: Params, d: Data)
    requires Valid(d) && MinLength(p) <= |d.bars|
    requires CallAt(p, d, |d.bars| - 1) == Some(-1)
    ensures Signals(p, d).Produced? && Signals(p, d).value[|d.bars| - 1] == Some(0)
    ensures Codes(Signals(p, d).value) == Codes(LoopColumn(p, d)[..|d.bars| - 1]) + [0]
  {
    var n := |d.bars|;
    assert StateBefore(p, d, n).position == -1 by {
      StateShape(p, d, n - 1);
      assert StateBefore(p, d, n) == Step(p, d, StateBefore(p, d, n - 1), n - 1).0;
    }
    CodesOfLastWrite(LoopColumn(p, d), 0);
  }
}
