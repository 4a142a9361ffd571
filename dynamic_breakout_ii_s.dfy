/*
 * DynamicBreakOutII_S (backup version): go short when the previous close was
 * below the lower Bollinger band and the bar reaches the previous Donchian
 * low; cover on the opposite breakout, or when the bar reaches the adaptive
 * mid line. Each bar's output row is [signal, quantity, entry_price,
 * exit_price, position]; rows without an event keep [0, Lots, NaN, NaN, 0].
 */
module DynamicBreakOutIIS {
  import opened Wrappers
  import opened Common
  import opened Events
  import opened DynamicBreakOut

  /** The row every bar starts with. */
  function Blank(p: Params): Row
  {
    Row(0, p.lots, None, None, 0)
  }

  datatype State = State(position: int, positionBars: int)

  predicate EntryCondition(d: Indicators, i: int)
    requires WellShaped(d) && 1 <= i < |d.bars|
  {
    Lt(Some(d.bars[i - 1].close), d.dnBand[i - 1]) && Le(Some(d.bars[i].low), d.sellPoint[i - 1])
  }

  /** Exit 1: the opposite breakout. */
  predicate ReversalCondition(d: Indicators, i: int)
    requires WellShaped(d) && 1 <= i < |d.bars|
  {
    Gt(Some(d.bars[i - 1].close), d.upBand[i - 1]) && Ge(Some(d.bars[i].high), d.buyPoint[i - 1])
  }

  /** One iteration of the signal loop: the new state and the row written on bar `i`, if any. */
  function Step(p: Params, d: Indicators, st: State, i: int): (State, Option<Row>)
    requires WellShaped(d) && 1 <= i < |d.bars|
  {
    var open := d.bars[i].open;
    if st.position == 0 then
      if EntryCondition(d, i) then
        (State(-1, 0), Some(Row(-1, p.lots, PyMin(Some(open), d.sellPoint[i - 1]), None, -1)))
      else (st, None)
    else if st.position == -1 then
      var held := st.positionBars + 1;
      if ReversalCondition(d, i) then
        (State(0, 0), Some(Row(1, p.lots, None, PyMax(Some(open), d.buyPoint[i - 1]), 0)))
      else if held >= 1 && Ge(Some(d.bars[i].high), d.liqPoint[i - 1]) then
        (State(0, 0), Some(Row(1, p.lots, None, PyMax(Some(open), d.liqPoint[i - 1]), 0)))
      else (State(-1, held), None)
    else (st, None)
  }

  /** The state when the iteration for bar `i` begins (the loop starts at bar 1). */
  function StateBefore(p: Params, d: Indicators, i: int): State
    requires WellShaped(d) && 0 <= i <= |d.bars|
  {
    if i <= 1 then State(0, 0) else Step(p, d, StateBefore(p, d, i - 1), i - 1).0
  }

  function EventAt(p: Params, d: Indicators, i: int): Option<Row>
    requires WellShaped(d) && 1 <= i < |d.bars|
  {
    Step(p, d, StateBefore(p, d, i), i).1
  }

  /** Bar `j`'s row when the loop ends. */
  function RowAt(p: Params, d: Indicators, j: int): Row
    requires WellShaped(d) && 0 <= j < |d.bars|
  {
    if j >= 1 && EventAt(p, d, j).Some? then EventAt(p, d, j).value else Blank(p)
  }

  function LoopRows(p: Params, d: Indicators): (r: seq<Row>)
    requires WellShaped(d)
    ensures |r| == |d.bars|
  {
    seq(|d.bars|, j requires 0 <= j < |d.bars| => RowAt(p, d, j))
  }

  /** The forced close: a short still open turns the last row into a cover at the last close. */
  function ForceCloseRows(p: Params, d: Indicators, rows: seq<Row>, holding: bool): (r: seq<Row>)
    requires |rows| == |d.bars|
    ensures |r| == |rows|
  {
    if holding && |rows| > 0 then rows[|rows| - 1 := Row(1, p.lots, None, Some(d.bars[|d.bars| - 1].close), 0)]
    else rows
  }

  /** What `generate_signals` returns: an error below `ceilingAmt` bars. */
  function Signals(p: Params, d: Indicators): Outcome<seq<Row>>
    requires WellShaped(d)
  {
    if |d.bars| < p.ceilingAmt then Raised("数据长度不足")
    else Produced(ForceCloseRows(p, d, LoopRows(p, d), StateBefore(p, d, |d.bars|).position == -1))
  }

  method GenerateSignals(p: Params, d: Indicators) returns (out: Outcome<seq<Row>>)
    requires WellShaped(d)
    ensures out == Signals(p, d)
  {
    var n := |d.bars|;
    if n < p.ceilingAmt {
      return Raised("数据长度不足");
    }
    var rows: seq<Row> := seq(n, _ => Row(0, p.lots, None, None, 0));
    var position, positionBars := 0, 0;
    var i := 1;
    while i < n
      invariant 1 <= i <= n || n == 0
      invariant State(position, positionBars) == StateBefore(p, d, if n == 0 then 0 else i)
      invariant |rows| == n
      invariant forall j :: 0 <= j < i && j < n ==> rows[j] == RowAt(p, d, j)
      invariant forall j :: i <= j < n ==> rows[j] == Blank(p)
    {
      var close := d.bars[i - 1].close;
      var open, high, low := d.bars[i].open, d.bars[i].high, d.bars[i].low;
      if position == 0 {
        if Lt(Some(close), d.dnBand[i - 1]) && Le(Some(low), d.sellPoint[i - 1]) {
          var entryPrice := PyMin(Some(open), d.sellPoint[i - 1]);
          rows := rows[i := Row(-1, p.lots, entryPrice, None, -1)];
          position := -1;
          positionBars := 0;
        }
      } else if position == -1 {
        positionBars := positionBars + 1;
        if Gt(Some(close), d.upBand[i - 1]) && Ge(Some(high), d.buyPoint[i - 1]) {
          var exitPrice := PyMax(Some(open), d.buyPoint[i - 1]);
          rows := rows[i := Row(1, p.lots, None, exitPrice, 0)];
          position := 0;
          positionBars := 0;
        } else if positionBars >= 1 && Ge(Some(high), d.liqPoint[i - 1]) {
          var exitPrice := PyMax(Some(open), d.liqPoint[i - 1]);
          rows := rows[i := Row(1, p.lots, None, exitPrice, 0)];
          position := 0;
          positionBars := 0;
        }
      }
      i := i + 1;
    }
    if position == -1 {
      rows := rows[n - 1 := Row(1, p.lots, None, Some(d.bars[n - 1].close), 0)];
    }
    assert State(position, positionBars) == StateBefore(p, d, n);
    assert rows == ForceCloseRows(p, d, LoopRows(p, d), position == -1);
    return Produced(rows);
  }

  // ===================== properties =====================

  /** The book is always flat or short, and a flat book has no bar count. */
  lemma {:induction false} StateShape(p: Params, d: Indicators, i: int)
    requires WellShaped(d) && 0 <= i <= |d.bars|
    ensures StateBefore(p, d, i).position in {0, -1}
    ensures StateBefore(p, d, i).positionBars >= 0
    ensures StateBefore(p, d, i).position == 0 ==> StateBefore(p, d, i).positionBars == 0
    decreases i
  {
    if i > 1 {
      StateShape(p, d, i - 1);
    }
  }

  /**
   * A short entry is written exactly when the book is flat and the downside
   * breakout holds; it sells at the open or the Donchian low, whichever is
   * lower, and is the only row whose position field is -1.
   */
  lemma EntryExactly(p: Params, d: Indicators, i: int)
    requires WellShaped(d) && 1 <= i < |d.bars|
    ensures (EventAt(p, d, i).Some? && EventAt(p, d, i).value.signal == -1) <==>
      StateBefore(p, d, i).position == 0 && Lt(Some(d.bars[i - 1].close), d.dnBand[i - 1]) && Le(Some(d.bars[i].low), d.sellPoint[i - 1])
    ensures EventAt(p, d, i).Some? && EventAt(p, d, i).value.signal == -1 ==>
      var r := EventAt(p, d, i).value;
      r.position == -1 && r.quantity == p.lots && r.exitPrice.None? && r.entryPrice.Some? &&
      r.entryPrice.value <= d.bars[i].open && r.entryPrice.value <= d.sellPoint[i - 1].value &&
      (r.entryPrice.value == d.bars[i].open || r.entryPrice.value == d.sellPoint[i - 1].value)
  {
    StateShape(p, d, i);
  }

  /**
   * A cover is written exactly when the book is short and either the
   * opposite breakout holds or the high reaches the mid line: the
   * `position_bars >= 1` guard is always met, the count having just been
   * incremented from a non-negative value. The cover buys at the open or the
   * level reached, whichever is higher.
   */
  lemma ExitExactly(p: Params, d: Indicators, i: int)
    requires WellShaped(d) && 1 <= i < |d.bars|
    ensures (EventAt(p, d, i).Some? && EventAt(p, d, i).value.signal == 1) <==>
      StateBefore(p, d, i).position == -1 &&
      ((Gt(Some(d.bars[i - 1].close), d.upBand[i - 1]) && Ge(Some(d.bars[i].high), d.buyPoint[i - 1])) ||
       Ge(Some(d.bars[i].high), d.liqPoint[i - 1]))
    ensures EventAt(p, d, i).Some? && EventAt(p, d, i).value.signal == 1 ==>
      var r := EventAt(p, d, i).value;
      r.position == 0 && r.quantity == p.lots && r.entryPrice.None? && r.exitPrice.Some? &&
      r.exitPrice.value >= d.bars[i].open &&
      (if ReversalCondition(d, i) then r.exitPrice.value >= d.buyPoint[i - 1].value
       else r.exitPrice.value >= d.liqPoint[i - 1].value)
  {
    StateShape(p, d, i);
  }

  /** Every event row is an entry (-1) or a cover (1). */
  lemma EventsAreEntriesOrCovers(p: Params, d: Indicators, i: int)
    requires WellShaped(d) && 1 <= i < |d.bars|
    ensures EventAt(p, d, i).Some? ==> EventAt(p, d, i).value.signal in {-1, 1}
  {
    StateShape(p, d, i);
  }

  /**
   * The `position` field reads -1 only on entry rows: bars on which the short
   * is merely held keep the initial 0, and so does the forced-close row.
   */
  lemma PositionFieldMarksEntriesOnly(p: Params, d: Indicators, j: int)
    requires WellShaped(d) && |d.bars| >= p.ceilingAmt && 0 <= j < |d.bars|
    ensures Signals(p, d).Produced?
    ensures Signals(p, d).value[j].position == -1 <==> Signals(p, d).value[j].signal == -1
    ensures Signals(p, d).value[j].position in {0, -1}
  {
    assert LoopRows(p, d)[j] == RowAt(p, d, j);
    if j >= 1 {
      StateShape(p, d, j);
    }
  }

  /** The position held when each bar begins, and after the last. */
  function Positions(p: Params, d: Indicators): (r: seq<int>)
    requires WellShaped(d)
    ensures |r| == |d.bars| + 1
  {
    seq(|d.bars| + 1, j requires 0 <= j <= |d.bars| => StateBefore(p, d, j).position)
  }

  lemma PositionsAt(p: Params, d: Indicators, j: int)
    requires WellShaped(d) && 0 <= j <= |d.bars|
    ensures Positions(p, d)[j] == StateBefore(p, d, j).position
  {
  }

  /** Bar `j`'s signal code is exactly the code of the position change across it. */
  lemma CallIsTransition(p: Params, d: Indicators, j: int)
    requires WellShaped(d) && 0 <= j < |d.bars|
    ensures SignalCodes(LoopRows(p, d))[j] ==
            Transition(StateBefore(p, d, j).position, StateBefore(p, d, j + 1).position, -1, -1, 1)
  {
    StateShape(p, d, j);
    SignalCodeAt(LoopRows(p, d), j);
    if j >= 1 {
      assert StateBefore(p, d, j + 1) == Step(p, d, StateBefore(p, d, j), j).0;
    }
  }

  lemma PositionAt(p: Params, d: Indicators, j: int)
    requires WellShaped(d) && 0 <= j <= |d.bars|
    ensures Positions(p, d)[j] == 0 || Positions(p, d)[j] == -1
  {
    StateShape(p, d, j);
  }

  lemma ColumnAt(p: Params, d: Indicators, j: int)
    requires WellShaped(d) && 0 <= j < |d.bars|
    ensures SignalCodes(LoopRows(p, d))[j] == Transition(Positions(p, d)[j], Positions(p, d)[j + 1], -1, -1, 1)
  {
    CallIsTransition(p, d, j);
    PositionsAt(p, d, j);
    PositionsAt(p, d, j + 1);
  }

  lemma LoopFollowsPositions(p: Params, d: Indicators)
    requires WellShaped(d)
    ensures Follows(SignalCodes(LoopRows(p, d)), Positions(p, d), -1, -1, 1)
  {
    forall j | 0 <= j <= |d.bars| ensures Positions(p, d)[j] == 0 || Positions(p, d)[j] == -1 {
      PositionAt(p, d, j);
    }
    forall j | 0 <= j < |d.bars| ensures SignalCodes(LoopRows(p, d))[j] == Transition(Positions(p, d)[j], Positions(p, d)[j + 1], -1, -1, 1) {
      ColumnAt(p, d, j);
    }
  }

  lemma ForceCloseRowsCodes(p: Params, d: Indicators, rows: seq<Row>, holding: bool)
    requires |rows| == |d.bars|
    ensures SignalCodes(ForceCloseRows(p, d, rows, holding)) == ForceClose(SignalCodes(rows), holding, 1)
  {
  }

  /** Unless an entry lands on the last bar, the signal column alternates entry/cover and ends flat. */
  lemma NetFlat(p: Params, d: Indicators)
    requires WellShaped(d) && |d.bars| >= p.ceilingAmt
    requires |d.bars| > 0 ==> LoopRows(p, d)[|d.bars| - 1].signal != -1
    ensures Signals(p, d).Produced?
    ensures Alternating(Codes(SignalCodes(Signals(p, d).value)), -1, 1)
    ensures |Codes(SignalCodes(Signals(p, d).value))| % 2 == 0
  {
    LoopFollowsPositions(p, d);
    ForceCloseRowsCodes(p, d, LoopRows(p, d), StateBefore(p, d, |d.bars|).position == -1);
    ForcedCloseBalances(SignalCodes(LoopRows(p, d)), Positions(p, d), -1, -1, 1);
  }

  /** An entry on the last bar is overwritten by the forced cover at the last close. */
  lemma LastBarEntryOverwritten(p: Params, d: Indicators)
    requires WellShaped(d) && |d.bars| >= p.ceilingAmt && |d.bars| >= 2
    requires LoopRows(p, d)[|d.bars| - 1].signal == -1
    ensures Signals(p, d).Produced?
    ensures Signals(p, d).value[|d.bars| - 1] == Row(1, p.lots, None, Some(d.bars[|d.bars| - 1].close), 0)
    ensures Codes(SignalCodes(Signals(p, d).value)) == Codes(SignalCodes(LoopRows(p, d))[..|d.bars| - 1]) + [1]
  {
    var n := |d.bars|;
    assert StateBefore(p, d, n).position == -1 by {
      CallIsTransition(p, d, n - 1);
      SignalCodeAt(LoopRows(p, d), n - 1);
    }
    ForceCloseRowsCodes(p, d, LoopRows(p, d), true);
    CodesOfLastWrite(SignalCodes(LoopRows(p, d)), 1);
  }

  /** The parameters the constructor ends up with: the defaults overridden by the caller's keys. */
  lemma ParamsMerge(defaults: ParamMap, params: Option<ParamMap>, key: string)
    requires key in defaults
    ensures key in MergeParams(defaults, params)
    ensures params.None? ==> MergeParams(defaults, params)[key] == defaults[key]
    ensures params.Some? && key in params.value ==> MergeParams(defaults, params)[key] == params.value[key]
  {
  }
}
