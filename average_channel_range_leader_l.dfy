/*
 * AverageChannelRangeLeader_L: a long entry after a "range leader" bar (its
 * median price above the previous high and its range wider than the
 * previous range) that closed above the displaced average of highs. The
 * stop has two phases: for the first ExitBar bars in the trade it is the
 * displaced average of median prices, afterwards the displaced average of
 * highs less one tick. Codes: 1 entry, 0 exit, NaN elsewhere.
 */
module AverageChannelRangeLeaderL {
  import opened Wrappers
  import opened Common
  import opened Events

  datatype Params = Params(avgLen: nat, absDisp: nat, exitBar: int, lots: real)

  const Defaults := Params(20, 5, 5, 1.0)

  /** `minpoint`: the price tick. */
  const MinPoint: real := 1.0

  /** `MyRange`: the bar's range. */
  function MyRange(b: Bar): real
  {
    b.high - b.low
  }

  /** `MedianPrice`: the middle of the bar's range. */
  function MedianPrice(b: Bar): real
  {
    (b.high + b.low) * 0.5
  }

  /** `RangeLeadB`; on bar 0 the shifted columns are NaN, so it is false. */
  function RangeLeadB(bars: seq<Bar>): (r: seq<bool>)
    ensures |r| == |bars|
  {
    seq(|bars|, i requires 0 <= i < |bars| =>
      i >= 1 && MedianPrice(bars[i]) > bars[i - 1].high && MyRange(bars[i]) > MyRange(bars[i - 1]))
  }

  /** On well-formed bars a range leader makes a higher high than the bar before (its low need not be higher). */
  lemma RangeLeaderRises(bars: seq<Bar>, i: int)
    requires WellFormed(bars) && 1 <= i < |bars| && RangeLeadB(bars)[i]
    ensures bars[i].high > bars[i - 1].high
    ensures MedianPrice(bars[i]) > bars[i - 1].low
  {
    assert WellFormedBar(bars[i]) && WellFormedBar(bars[i - 1]);
  }

  /**
   * The columns the loop reads: the AvgLen-bar averages of the highs and of the
   * median prices, both shifted forward by AbsDisp bars.
   */
  datatype Data = Data(bars: seq<Bar>, upperAvg: Column, exitAvg: Column, rangeLeadB: seq<bool>)

  predicate Valid(d: Data)
  {
    |d.upperAvg| == |d.bars| && |d.exitAvg| == |d.bars| && |d.rangeLeadB| == |d.bars|
  }

  datatype State = State(position: int, positionBars: int)

  const Init := State(0, 0)

  predicate EntryCondition(d: Data, i: int)
    requires Valid(d) && 1 <= i < |d.bars|
  {
    d.rangeLeadB[i - 1] && Gt(Some(d.bars[i - 1].close), d.upperAvg[i - 1])
  }

  /** The stop level for a bar that is the `count`-th of the trade: early and late phase. */
  function StopLevel(p: Params, d: Data, count: int, i: int): Option<real>
    requires Valid(d) && 0 <= i < |d.bars|
  {
    if count <= p.exitBar then d.exitAvg[i] else Sub(d.upperAvg[i], Some(MinPoint))
  }

  function Step(p: Params, d: Data, st: State, i: int): (State, Option<int>)
    requires Valid(d) && 1 <= i < |d.bars|
  {
    if st.position == 0 then
      if EntryCondition(d, i) then (State(1, 0), Some(1)) else (st, None)
    else if st.position == 1 then
      var count := st.positionBars + 1;
      if count <= p.exitBar then
        if Le(Some(d.bars[i].low), d.exitAvg[i]) then (State(0, 0), Some(0)) else (State(1, count), None)
      else
        if Le(Some(d.bars[i].low), Sub(d.upperAvg[i], Some(MinPoint))) then (State(0, 0), Some(0))
        else (State(1, count), None)
    else (st, None)
  }

  function StateBefore(p: Params, d: Data, i: int): State
    requires Valid(d) && 0 <= i <= |d.bars|
  {
    if i <= 1 then Init else Step(p, d, StateBefore(p, d, i - 1), i - 1).0
  }

  function CallAt(p: Params, d: Data, i: int): Option<int>
    requires Valid(d) && 1 <= i < |d.bars|
  {
    Step(p, d, StateBefore(p, d, i), i).1
  }

  function LoopColumn(p: Params, d: Data): (r: seq<Option<int>>)
    requires Valid(d)
    ensures |r| == |d.bars|
  {
    seq(|d.bars|, j requires 0 <= j < |d.bars| => if j >= 1 then CallAt(p, d, j) else None)
  }

  lemma LoopColumnAt(p: Params, d: Data, j: int)
    requires Valid(d) && 1 <= j < |d.bars|
    ensures LoopColumn(p, d)[j] == CallAt(p, d, j)
  {
  }

  function MinLength(p: Params): nat
  {
    p.avgLen + p.absDisp
  }

  function Signals(p: Params, d: Data): Outcome<seq<Option<int>>>
    requires Valid(d)
  {
    if |d.bars| < MinLength(p) then Raised("数据长度不足")
    else Produced(ForceClose(LoopColumn(p, d), StateBefore(p, d, |d.bars|).position == 1, 0))
  }

  lemma SignalsOfLongEnough(p: Params, d: Data)
    requires Valid(d) && |d.bars| >= MinLength(p)
    ensures Signals(p, d) == Produced(ForceClose(LoopColumn(p, d), Positions(p, d)[|d.bars|] == 1, 0))
  {
    PositionsAt(p, d, |d.bars|);
  }

  method GenerateSignals(p: Params, d: Data) returns (out: Outcome<seq<Option<int>>>)
    requires Valid(d)
    ensures out == Signals(p, d)
  {
    var n := |d.bars|;
    if n < p.avgLen + p.absDisp {
      return Raised("数据长度不足");
    }
    var calls: seq<Option<int>> := seq(n, _ => None);
    var position, positionBars := 0, 0;
    var i := 1;
    while i < n
      invariant 1 <= i <= n || n == 0
      invariant n > 0 ==> State(position, positionBars) == StateBefore(p, d, i)
      invariant n == 0 ==> position == 0
      invariant |calls| == n
      invariant forall j :: 0 <= j < i && j < n ==> calls[j] == if j >= 1 then CallAt(p, d, j) else None
      invariant forall j :: i <= j < n ==> calls[j] == None
    {
      if position == 0 {
        if d.rangeLeadB[i - 1] && Gt(Some(d.bars[i - 1].close), d.upperAvg[i - 1]) {
          calls := calls[i := Some(1)];
          position := 1;
          positionBars := 0;
        }
      } else if position == 1 {
        positionBars := positionBars + 1;
        if positionBars <= p.exitBar {
          if Le(Some(d.bars[i].low), d.exitAvg[i]) {
            calls := calls[i := Some(0)];
            position := 0;
            positionBars := 0;
          }
        } else {
          if Le(Some(d.bars[i].low), Sub(d.upperAvg[i], Some(MinPoint))) {
            calls := calls[i := Some(0)];
            position := 0;
            positionBars := 0;
          }
        }
      }
      i := i + 1;
    }
    if position == 1 {
      calls := calls[n - 1 := Some(0)];
    }
    assert calls == ForceClose(LoopColumn(p, d), StateBefore(p, d, n).position == 1, 0);
    return Produced(calls);
  }

  // ===================== properties =====================

  lemma StepTransition(p: Params, d: Data, st: State, i: int)
    requires Valid(d) && 1 <= i < |d.bars| && st.position in {0, 1} && st.positionBars >= 0
    ensures var (next, code) := Step(p, d, st, i);
      next.position in {0, 1} && next.positionBars >= 0 &&
      code == Transition(st.position, next.position, 1, 1, 0)
  {
  }

  lemma {:induction false} StateShape(p: Params, d: Data, i: int)
    requires Valid(d) && 0 <= i <= |d.bars|
    ensures StateBefore(p, d, i).position in {0, 1}
    ensures StateBefore(p, d, i).positionBars >= 0
    decreases i
  {
    if i > 1 {
      StateShape(p, d, i - 1);
      StepTransition(p, d, StateBefore(p, d, i - 1), i - 1);
    }
  }

  /** A long entry is written exactly when flat, the previous bar was a range leader and closed above UpperAvg; volume plays no part. */
  lemma EntryExactly(p: Params, d: Data, i: int)
    requires Valid(d) && 1 <= i < |d.bars|
    ensures CallAt(p, d, i) == Some(1) <==>
      StateBefore(p, d, i).position == 0 && d.rangeLeadB[i - 1] && Gt(Some(d.bars[i - 1].close), d.upperAvg[i - 1])
  {
    StateShape(p, d, i);
  }

  /** An exit is written exactly when long and bar i's low reaches bar i's stop level for its phase in the trade. */
  lemma ExitExactly(p: Params, d: Data, i: int)
    requires Valid(d) && 1 <= i < |d.bars|
    ensures var st := StateBefore(p, d, i);
      CallAt(p, d, i) == Some(0) <==>
      st.position == 1 && Le(Some(d.bars[i].low), StopLevel(p, d, st.positionBars + 1, i))
  {
    StateShape(p, d, i);
  }

  /** After an entry on bar `e` and no event since, the trade has lasted i - 1 - e bars. */
  lemma {:induction false} BarsInTrade(p: Params, d: Data, e: int, i: int)
    requires Valid(d) && 1 <= e < i <= |d.bars|
    requires CallAt(p, d, e) == Some(1)
    requires forall j :: e < j < i ==> CallAt(p, d, j) == None
    ensures StateBefore(p, d, i) == State(1, i - 1 - e)
    decreases i
  {
    if i - 1 > e {
      BarsInTrade(p, d, e, i - 1);
      assert CallAt(p, d, i - 1) == None;
    } else {
      EntryExactly(p, d, e);
    }
  }

  /**
   * The two-phase stop: a trade entered on bar `e` and still open at bar `i`
   * is closed on bar `i` exactly when its low reaches ExitAvg[i] while
   * i - e <= ExitBar, and UpperAvg[i] - 1 afterwards.
   */
  lemma TwoPhaseStop(p: Params, d: Data, e: int, i: int)
    requires Valid(d) && 1 <= e < i < |d.bars|
    requires CallAt(p, d, e) == Some(1)
    requires forall j :: e < j < i ==> CallAt(p, d, j) == None
    ensures CallAt(p, d, i) == Some(0) <==>
      if i - e <= p.exitBar then Le(Some(d.bars[i].low), d.exitAvg[i])
      else Le(Some(d.bars[i].low), Sub(d.upperAvg[i], Some(MinPoint)))
  {
    BarsInTrade(p, d, e, i);
    ExitExactly(p, d, i);
  }

  function Positions(p: Params, d: Data): (r: seq<int>)
    requires Valid(d)
    ensures |r| == |d.bars| + 1
  {
    seq(|d.bars| + 1, j requires 0 <= j <= |d.bars| => StateBefore(p, d, j).position)
  }

  lemma PositionsAt(p: Params, d: Data, j: int)
    requires Valid(d) && 0 <= j <= |d.bars|
    ensures Positions(p, d)[j] == StateBefore(p, d, j).position
  {
  }

  lemma CallIsTransition(p: Params, d: Data, j: int)
    requires Valid(d) && 0 <= j < |d.bars|
    ensures (if j >= 1 then CallAt(p, d, j) else None) ==
            Transition(StateBefore(p, d, j).position, StateBefore(p, d, j + 1).position, 1, 1, 0)
  {
    StateShape(p, d, j);
    if j >= 1 {
      var st := StateBefore(p, d, j);
      StepTransition(p, d, st, j);
      assert StateBefore(p, d, j + 1) == Step(p, d, st, j).0;
    }
  }

  lemma PositionAt(p: Params, d: Data, j: int)
    requires Valid(d) && 0 <= j <= |d.bars|
    ensures Positions(p, d)[j] == 0 || Positions(p, d)[j] == 1
  {
    StateShape(p, d, j);
  }

  lemma ColumnAt(p: Params, d: Data, j: int)
    requires Valid(d) && 0 <= j < |d.bars|
    ensures LoopColumn(p, d)[j] == Transition(Positions(p, d)[j], Positions(p, d)[j + 1], 1, 1, 0)
  {
    CallIsTransition(p, d, j);
    PositionsAt(p, d, j);
    PositionsAt(p, d, j + 1);
  }

  lemma LoopFollowsPositions(p: Params, d: Data)
    requires Valid(d)
    ensures Follows(LoopColumn(p, d), Positions(p, d), 1, 1, 0)
  {
    forall j | 0 <= j <= |d.bars| ensures Positions(p, d)[j] == 0 || Positions(p, d)[j] == 1 {
      PositionAt(p, d, j);
    }
    forall j | 0 <= j < |d.bars| ensures LoopColumn(p, d)[j] == Transition(Positions(p, d)[j], Positions(p, d)[j + 1], 1, 1, 0) {
      ColumnAt(p, d, j);
    }
  }

  /** Entries and exits alternate and the produced column ends flat, unless an entry lands on the last bar. */
  lemma NetFlat(p: Params, d: Data)
    requires Valid(d) && |d.bars| >= MinLength(p)
    requires |d.bars| > 0 ==> LoopColumn(p, d)[|d.bars| - 1] != Some(1)
    ensures Signals(p, d).Produced?
    ensures Alternating(Codes(Signals(p, d).value), 1, 0) && |Codes(Signals(p, d).value)| % 2 == 0
  {
    LoopFollowsPositions(p, d);
    ForcedCloseBalances(LoopColumn(p, d), Positions(p, d), 1, 1, 0);
  }

  /** An entry on the last bar is overwritten by the forced exit, so the entry is lost. */
  lemma LastBarEntryOverwritten(p: Params, d: Data)
    requires Valid(d) && MinLength(p) <= |d.bars| && |d.bars| >= 2
    requires CallAt(p, d, |d.bars| - 1) == Some(1)
    ensures Signals(p, d).Produced? && Signals(p, d).value[|d.bars| - 1] == Some(0)
    ensures Codes(Signals(p, d).value) == Codes(LoopColumn(p, d)[..|d.bars| - 1]) + [0]
  {
    var n := |d.bars|;
    var st := StateBefore(p, d, n - 1);
    assert StateBefore(p, d, n).position == 1 by {
      StateShape(p, d, n - 1);
      StepTransition(p, d, st, n - 1);
      assert StateBefore(p, d, n) == Step(p, d, st, n - 1).0;
    }
    CodesOfLastWrite(LoopColumn(p, d), 0);
  }
}
