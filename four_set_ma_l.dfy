/*
 * FourSetofMACrossoverSys_L: a long-only system on two pairs of simple moving
 * averages. It buys when both the entry pair and the exit pair were bullish on
 * the previous bar and the bar reaches the previous high; it sells when the
 * short exit pair turns bearish, or when both bearish pairs line up and the
 * bar reaches the previous low. Trading starts at the fixed bar 100. Each
 * bar's row is [signal, quantity, entry_price, exit_price, position], and rows
 * without an event keep [0, 1, NaN, NaN, 0]. The eight averages are inputs.
 */
module FourSetMAL {
  import opened Wrappers
  import opened Common
  import opened Events

  datatype Params = Params(leFast: nat, leSlow: nat, lxFast: nat, lxSlow: nat,
                           seFast: nat, seSlow: nat, sxFast: nat, sxSlow: nat)

  const Defaults := Params(5, 20, 3, 10, 5, 20, 3, 10)

  /** The first bar the signal loop visits. */
  const FirstBar: nat := 100

  /** The price frame with the eight `Average(close, ·)` columns `calculate_indicators` adds. */
  datatype Data = Data(bars: seq<Bar>,
                       maLEFast: Column, maLESlow: Column, maLXFast: Column, maLXSlow: Column,
                       maSEFast: Column, maSESlow: Column, maSXFast: Column, maSXSlow: Column)

  predicate Valid(d: Data)
  {
    var n := |d.bars|;
    |d.maLEFast| == n && |d.maLESlow| == n && |d.maLXFast| == n && |d.maLXSlow| == n &&
    |d.maSEFast| == n && |d.maSESlow| == n && |d.maSXFast| == n && |d.maSXSlow| == n
  }

  function MinLength(p: Params): nat
  {
    if p.leSlow >= p.seSlow then p.leSlow else p.seSlow
  }

  /** The row every bar starts with. */
  const Blank := Row(0, 1.0, None, None, 0)

  predicate EntryCondition(d: Data, i: int)
    requires Valid(d) && 1 <= i < |d.bars|
  {
    Gt(d.maLEFast[i - 1], d.maLESlow[i - 1]) && Gt(d.maLXFast[i - 1], d.maLXSlow[i - 1]) &&
    d.bars[i].high >= d.bars[i - 1].high && d.bars[i].vol > 0.0
  }

  /** Exit 1: the short exit pair was bearish on the previous bar. */
  predicate FastExit(d: Data, i: int)
    requires Valid(d) && 1 <= i < |d.bars|
  {
    Lt(d.maLXFast[i - 1], d.maLXSlow[i - 1])
  }

  /** Exit 2: both bearish pairs were bearish and the bar reaches the previous low. */
  predicate BreakdownExit(d: Data, i: int)
    requires Valid(d) && 1 <= i < |d.bars|
  {
    Lt(d.maSEFast[i - 1], d.maSESlow[i - 1]) && Lt(d.maSXFast[i - 1], d.maSXSlow[i - 1]) &&
    d.bars[i].low <= d.bars[i - 1].low
  }

  /** One iteration of the signal loop: the new position and the row written on bar `i`, if any. */
  function Step(d: Data, position: int, i: int): (int, Option<Row>)
    requires Valid(d) && 1 <= i < |d.bars|
  {
    var open := d.bars[i].open;
    if position == 0 && EntryCondition(d, i) then
      (1, Some(Row(1, 1.0, Some(MaxReal(open, d.bars[i - 1].high)), None, 1)))
    else if position == 1 && d.bars[i].vol > 0.0 then
      if FastExit(d, i) then (0, Some(Row(-1, 1.0, None, Some(open), 0)))
      else if BreakdownExit(d, i) then (0, Some(Row(-1, 1.0, None, Some(MinReal(open, d.bars[i - 1].low)), 0)))
      else (position, None)
    else (position, None)
  }

  /** The position when the iteration for bar `i` begins; nothing happens before bar 100. */
  function PositionBefore(d: Data, i: int): int
    requires Valid(d) && 0 <= i <= |d.bars|
  {
    if i <= FirstBar then 0 else Step(d, PositionBefore(d, i - 1), i - 1).0
  }

  function EventAt(d: Data, i: int): Option<Row>
    requires Valid(d) && FirstBar <= i < |d.bars|
  {
    Step(d, PositionBefore(d, i), i).1
  }

  /** Bar `j`'s row when the loop ends. */
  function RowAt(d: Data, j: int): Row
    requires Valid(d) && 0 <= j < |d.bars|
  {
    if j >= FirstBar && EventAt(d, j).Some? then EventAt(d, j).value else Blank
  }

  function LoopRows(d: Data): (r: seq<Row>)
    requires Valid(d)
    ensures |r| == |d.bars|
  {
    seq(|d.bars|, j requires 0 <= j < |d.bars| => RowAt(d, j))
  }

  /** The forced close: a long still open turns the last row into a sale at the last close. */
  function ForceCloseRows(d: Data, rows: seq<Row>, holding: bool): (r: seq<Row>)
    requires |rows| == |d.bars|
    ensures |r| == |rows|
  {
    if holding && |rows| > 0 then rows[|rows| - 1 := Row(-1, 1.0, None, Some(d.bars[|d.bars| - 1].close), 0)]
    else rows
  }

  /** What `generate_signals` returns: an error below the longer of the two slow lengths. */
  function Signals(p: Params, d: Data): Outcome<seq<Row>>
    requires Valid(d)
  {
    if |d.bars| < MinLength(p) then Raised("数据长度不足")
    else Produced(ForceCloseRows(d, LoopRows(d), PositionBefore(d, |d.bars|) == 1))
  }

  method GenerateSignals(p: Params, d: Data) returns (out: Outcome<seq<Row>>)
    requires Valid(d)
    ensures out == Signals(p, d)
  {
    var n := |d.bars|;
    if n < MinLength(p) {
      return Raised("数据长度不足");
    }
    var rows: seq<Row> := seq(n, _ => Blank);
    var currentPosition := 0;
    var i := FirstBar;
    while i < n
      invariant FirstBar <= i && (i <= n || i == FirstBar)
      invariant currentPosition == PositionBefore(d, if i <= n then i else n)
      invariant |rows| == n
      invariant forall j :: 0 <= j < i && j < n ==> rows[j] == RowAt(d, j)
      invariant forall j :: i <= j < n ==> rows[j] == Blank
    {
      var high, low, open := d.bars[i].high, d.bars[i].low, d.bars[i].open;
      var highPrev, lowPrev := d.bars[i - 1].high, d.bars[i - 1].low;
      var vol := d.bars[i].vol;
      if currentPosition == 0 && Gt(d.maLEFast[i - 1], d.maLESlow[i - 1]) && Gt(d.maLXFast[i - 1], d.maLXSlow[i - 1]) &&
         high >= highPrev && vol > 0.0 {
        var entryPrice := MaxReal(open, highPrev);
        rows := rows[i := Row(1, 1.0, Some(entryPrice), None, 1)];
        currentPosition := 1;
      } else if currentPosition == 1 && vol > 0.0 {
        if Lt(d.maLXFast[i - 1], d.maLXSlow[i - 1]) {
          rows := rows[i := Row(-1, 1.0, None, Some(open), 0)];
          currentPosition := 0;
        } else if Lt(d.maSEFast[i - 1], d.maSESlow[i - 1]) && Lt(d.maSXFast[i - 1], d.maSXSlow[i - 1]) && low <= lowPrev {
          var exitPrice := MinReal(open, lowPrev);
          rows := rows[i := Row(-1, 1.0, None, Some(exitPrice), 0)];
          currentPosition := 0;
        }
      }
      i := i + 1;
    }
    if currentPosition == 1 {
      rows := rows[n - 1 := Row(-1, 1.0, None, Some(d.bars[n - 1].close), 0)];
    }
    assert rows == ForceCloseRows(d, LoopRows(d), PositionBefore(d, n) == 1);
    return Produced(rows);
  }

  // ===================== properties =====================

  lemma {:induction false} PositionShape(d: Data, i: int)
    requires Valid(d) && 0 <= i <= |d.bars|
    ensures PositionBefore(d, i) in {0, 1}
    decreases i
  {
    if i > FirstBar {
      PositionShape(d, i - 1);
    }
  }

  /**
   * With at most 100 bars the loop never runs: the frame comes back with
   * every row blank and no forced close.
   */
  lemma ShortFrameIsBlank(p: Params, d: Data)
    requires Valid(d) && MinLength(p) <= |d.bars| <= FirstBar
    ensures Signals(p, d) == Produced(seq(|d.bars|, _ => Blank))
  {
    assert LoopRows(d) == seq(|d.bars|, _ => Blank);
  }

  /**
   * No row before bar 100 carries an event, not even the forced close: a
   * position can only be open after the loop has visited bar 100.
   */
  lemma NothingBeforeFirstBar(p: Params, d: Data, j: int)
    requires Valid(d) && |d.bars| >= MinLength(p) && 0 <= j < FirstBar && j < |d.bars|
    ensures Signals(p, d).Produced? && Signals(p, d).value[j] == Blank
  {
  }

  /**
   * A buy row is written exactly when flat, both averages pairs were bullish
   * on the previous bar, the high reaches the previous high and the bar has
   * volume. It buys at the open or the previous high, whichever is higher,
   * and marks the position 1.
   */
  lemma EntryExactly(d: Data, i: int)
    requires Valid(d) && FirstBar <= i < |d.bars|
    ensures (EventAt(d, i).Some? && EventAt(d, i).value.signal == 1) <==>
      PositionBefore(d, i) == 0 && EntryCondition(d, i)
    ensures EventAt(d, i).Some? && EventAt(d, i).value.signal == 1 ==>
      var r := EventAt(d, i).value;
      r.position == 1 && r.quantity == 1.0 && r.exitPrice.None? && r.entryPrice.Some? &&
      r.entryPrice.value >= d.bars[i - 1].high && r.entryPrice.value >= d.bars[i].open &&
      (r.entryPrice.value == d.bars[i - 1].high || r.entryPrice.value == d.bars[i].open)
  {
    PositionShape(d, i);
  }

  /**
   * A sell row is written exactly when long, the bar has volume, and one of
   * the two exits holds. The fast-pair exit takes priority and sells at the
   * open; the breakdown exit sells at the open or the previous low, whichever
   * is lower. Either way the position field reads 0.
   */
  lemma ExitExactly(d: Data, i: int)
    requires Valid(d) && FirstBar <= i < |d.bars|
    ensures (EventAt(d, i).Some? && EventAt(d, i).value.signal == -1) <==>
      PositionBefore(d, i) == 1 && d.bars[i].vol > 0.0 && (FastExit(d, i) || BreakdownExit(d, i))
    ensures EventAt(d, i).Some? && EventAt(d, i).value.signal == -1 ==>
      var r := EventAt(d, i).value;
      r.position == 0 && r.quantity == 1.0 && r.entryPrice.None? && r.exitPrice.Some? &&
      (if FastExit(d, i) then r.exitPrice.value == d.bars[i].open
       else r.exitPrice.value <= d.bars[i - 1].low && r.exitPrice.value <= d.bars[i].open &&
            (r.exitPrice.value == d.bars[i - 1].low || r.exitPrice.value == d.bars[i].open))
  {
    PositionShape(d, i);
  }

  /** Every event row is a buy or a sell, and no event happens on a bar without volume. */
  lemma EventsNeedVolume(d: Data, i: int)
    requires Valid(d) && FirstBar <= i < |d.bars|
    ensures EventAt(d, i).Some? ==> EventAt(d, i).value.signal in {1, -1} && d.bars[i].vol > 0.0
  {
    PositionShape(d, i);
  }

  function Positions(d: Data): (r: seq<int>)
    requires Valid(d)
    ensures |r| == |d.bars| + 1
  {
    seq(|d.bars| + 1, j requires 0 <= j <= |d.bars| => PositionBefore(d, j))
  }

  lemma PositionsAt(d: Data, j: int)
    requires Valid(d) && 0 <= j <= |d.bars|
    ensures Positions(d)[j] == PositionBefore(d, j)
  {
  }

  /** Bar `j`'s signal code is exactly the code of the position change across it. */
  lemma CallIsTransition(d: Data, j: int)
    requires Valid(d) && 0 <= j < |d.bars|
    ensures SignalCodes(LoopRows(d))[j] == Transition(PositionBefore(d, j), PositionBefore(d, j + 1), 1, 1, -1)
  {
    PositionShape(d, j);
    SignalCodeAt(LoopRows(d), j);
    if j >= FirstBar {
      assert PositionBefore(d, j + 1) == Step(d, PositionBefore(d, j), j).0;
    }
  }

  lemma PositionAt(d: Data, j: int)
    requires Valid(d) && 0 <= j <= |d.bars|
    ensures Positions(d)[j] == 0 || Positions(d)[j] == 1
  {
    PositionShape(d, j);
  }

  lemma ColumnAt(d: Data, j: int)
    requires Valid(d) && 0 <= j < |d.bars|
    ensures SignalCodes(LoopRows(d))[j] == Transition(Positions(d)[j], Positions(d)[j + 1], 1, 1, -1)
  {
    CallIsTransition(d, j);
    PositionsAt(d, j);
    PositionsAt(d, j + 1);
  }

  lemma LoopFollowsPositions(d: Data)
    requires Valid(d)
    ensures Follows(SignalCodes(LoopRows(d)), Positions(d), 1, 1, -1)
  {
    forall j | 0 <= j <= |d.bars| ensures Positions(d)[j] == 0 || Positions(d)[j] == 1 {
      PositionAt(d, j);
    }
    forall j | 0 <= j < |d.bars| ensures SignalCodes(LoopRows(d))[j] == Transition(Positions(d)[j], Positions(d)[j + 1], 1, 1, -1) {
      ColumnAt(d, j);
    }
  }

  lemma ForceCloseRowsCodes(d: Data, rows: seq<Row>, holding: bool)
    requires |rows| == |d.bars|
    ensures SignalCodes(ForceCloseRows(d, rows, holding)) == ForceClose(SignalCodes(rows), holding, -1)
  {
  }

  /** Unless a buy lands on the last bar, the signal column alternates buy/sell and ends flat. */
  lemma NetFlat(p: Params, d: Data)
    requires Valid(d) && |d.bars| >= MinLength(p)
    requires |d.bars| > 0 ==> LoopRows(d)[|d.bars| - 1].signal != 1
    ensures Signals(p, d).Produced?
    ensures Alternating(Codes(SignalCodes(Signals(p, d).value)), 1, -1)
    ensures |Codes(SignalCodes(Signals(p, d).value))| % 2 == 0
  {
    LoopFollowsPositions(d);
    ForceCloseRowsCodes(d, LoopRows(d), PositionBefore(d, |d.bars|) == 1);
    ForcedCloseBalances(SignalCodes(LoopRows(d)), Positions(d), 1, 1, -1);
  }

  /** A buy on the last bar is overwritten by the forced sale at the last close. */
  lemma LastBarEntryOverwritten(p: Params, d: Data)
    requires Valid(d) && |d.bars| >= MinLength(p) && |d.bars| > FirstBar
    requires LoopRows(d)[|d.bars| - 1].signal == 1
    ensures Signals(p, d).Produced?
    ensures Signals(p, d).value[|d.bars| - 1] == Row(-1, 1.0, None, Some(d.bars[|d.bars| - 1].close), 0)
    ensures Codes(SignalCodes(Signals(p, d).value)) == Codes(SignalCodes(LoopRows(d))[..|d.bars| - 1]) + [-1]
  {
    var n := |d.bars|;
    assert PositionBefore(d, n) == 1 by {
      CallIsTransition(d, n - 1);
      SignalCodeAt(LoopRows(d), n - 1);
    }
    ForceCloseRowsCodes(d, LoopRows(d), true);
    CodesOfLastWrite(SignalCodes(LoopRows(d)), -1);
  }
}
