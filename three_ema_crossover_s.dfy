/*
 * Three_EMA_Crossover_System_S (backup version): go short the bar after the
 * fast EMA crossed below the middle one while the middle one is below the
 * slow one; cover on the opposite cross, or when the high reaches a stop
 * that trails down a third of the way towards each bar's high, tested with
 * a lag. Codes: -1 entry, 0 exit, NaN elsewhere.
 */
module ThreeEmaCrossoverS {
  import opened Wrappers
  import opened Common
  import opened Events
  import L = ThreeEmaCrossoverL

  /** `SellCon1`: the fast average is below the middle one now and was above it on the bar before. */
  function SellCon1(avg1: Column, avg2: Column): (r: seq<bool>)
    requires |avg1| == |avg2|
    ensures |r| == |avg1|
    ensures forall i :: 0 <= i < |r| ==> (r[i] <==> Lt(avg1[i], avg2[i]) && i >= 1 && Gt(avg1[i - 1], avg2[i - 1]))
  {
    seq(|avg1|, i requires 0 <= i < |avg1| => Lt(avg1[i], avg2[i]) && Gt(Shift(avg1, 1)[i], Shift(avg2, 1)[i]))
  }

  /** A cross-under cannot fire on two bars in a row. */
  lemma NoCrossUnderTwiceInARow(avg1: Column, avg2: Column, i: int)
    requires |avg1| == |avg2| && 0 <= i && i + 1 < |avg1|
    requires SellCon1(avg1, avg2)[i]
    ensures !SellCon1(avg1, avg2)[i + 1]
  {
  }

  /** `RangeS` is the same rolling mean of the bar range as the long side's `RangeL`. */
  function RangeS(bars: seq<Bar>, rLength: nat): (r: Column)
    requires rLength >= 1
    ensures |r| == |bars|
  {
    L.RangeL(bars, rLength)
  }

  datatype Data = Data(bars: seq<Bar>, avg1: Column, avg2: Column, avg3: Column, rangeS: Column, sellCon1: seq<bool>)

  predicate Valid(d: Data)
  {
    |d.avg1| == |d.bars| && |d.avg2| == |d.bars| && |d.avg3| == |d.bars| && |d.rangeS| == |d.bars| && |d.sellCon1| == |d.bars|
  }

  /** `short_stop_price` and `prev_short_stop_price` both start at 0. */
  datatype State = State(position: int, stop: Option<real>, prevStop: Option<real>, positionBars: int)

  const Init := State(0, Some(0.0), Some(0.0), 0)

  /** The stop update `stop - (stop - high) / 3`. */
  function Shade(stop: Option<real>, high: real): Option<real>
  {
    Sub(stop, Div(Sub(stop, Some(high)), Some(3.0)))
  }

  predicate EntryCondition(d: Data, i: int)
    requires Valid(d) && 1 <= i < |d.bars|
  {
    d.sellCon1[i - 1] && Lt(d.avg2[i - 1], d.avg3[i - 1]) && d.bars[i].vol > 0.0
  }

  /** One iteration: the new state and the code written on bar `i`, if any. */
  function Step(d: Data, st: State, i: int): (State, Option<int>)
    requires Valid(d) && 1 <= i < |d.bars|
  {
    var volume := d.bars[i].vol > 0.0;
    if st.position == 0 then
      if EntryCondition(d, i) then
        var stop := Add(Some(d.bars[i].high), d.rangeS[i]);
        (State(-1, stop, stop, 0), Some(-1))
      else (st, None)
    else if st.position == -1 then
      var held := st.positionBars + 1;
      var (after, code) :=
        if Gt(d.avg1[i - 1], d.avg2[i - 1]) && volume then (st.(position := 0, positionBars := 0), Some(0))
        else if Ge(Some(d.bars[i].high), st.prevStop) && volume then (st.(position := 0, positionBars := 0), Some(0))
        else (st.(positionBars := held), None);
      if after.positionBars > 0 then
        (after.(prevStop := after.stop, stop := Shade(after.stop, d.bars[i].high)), code)
      else (after, code)
    else (st, None)
  }

  function StateBefore(d: Data, i: int): State
    requires Valid(d) && 0 <= i <= |d.bars|
  {
    if i <= 1 then Init else Step(d, StateBefore(d, i - 1), i - 1).0
  }

  function CallAt(d: Data, i: int): Option<int>
    requires Valid(d) && 1 <= i < |d.bars|
  {
    Step(d, StateBefore(d, i), i).1
  }

  function LoopColumn(d: Data): (r: seq<Option<int>>)
    requires Valid(d)
    ensures |r| == |d.bars|
  {
    seq(|d.bars|, j requires 0 <= j < |d.bars| => if j >= 1 then CallAt(d, j) else None)
  }

  function Signals(p: L.Params, d: Data): Outcome<seq<Option<int>>>
    requires Valid(d)
  {
    if |d.bars| < L.MinLength(p) then Raised("数据长度不足")
    else Produced(ForceClose(LoopColumn(d), StateBefore(d, |d.bars|).position == -1, 0))
  }

  method GenerateSignals(p: L.Params, d: Data) returns (out: Outcome<seq<Option<int>>>)
    requires Valid(d)
    ensures out == Signals(p, d)
  {
    var n := |d.bars|;
    if n < L.MinLength(p) {
      return Raised("数据长度不足");
    }
    var calls: seq<Option<int>> := seq(n, _ => None);
    var position, shortStopPrice, prevShortStopPrice, positionBars := 0, Some(0.0), Some(0.0), 0;
    if n <= 1 {
      assert calls == LoopColumn(d);
      return Produced(calls);
    }
    var i := 1;
    while i < n
      invariant 1 <= i <= n
      invariant State(position, shortStopPrice, prevShortStopPrice, positionBars) == StateBefore(d, i)
      invariant |calls| == n
      invariant forall j :: 0 <= j < i ==> calls[j] == if j >= 1 then CallAt(d, j) else None
      invariant forall j :: i <= j < n ==> calls[j] == None
    {
      var high, volume := d.bars[i].high, d.bars[i].vol > 0.0;
      if position == 0 {
        if d.sellCon1[i - 1] && Lt(d.avg2[i - 1], d.avg3[i - 1]) && volume {
          calls := calls[i := Some(-1)];
          position := -1;
          positionBars := 0;
          shortStopPrice := Add(Some(high), d.rangeS[i]);
          prevShortStopPrice := shortStopPrice;
        }
      } else if position == -1 {
        positionBars := positionBars + 1;
        if Gt(d.avg1[i - 1], d.avg2[i - 1]) && volume {
          calls := calls[i := Some(0)];
          position := 0;
          positionBars := 0;
        } else if Ge(Some(high), prevShortStopPrice) && volume {
          calls := calls[i := Some(0)];
          position := 0;
          positionBars := 0;
        }
        if positionBars > 0 {
          prevShortStopPrice := shortStopPrice;
          shortStopPrice := Shade(shortStopPrice, high);
        }
      }
      i := i + 1;
    }
    if position == -1 {
      calls := calls[n - 1 := Some(0)];
    }
    assert calls == ForceClose(LoopColumn(d), position == -1, 0);
    return Produced(calls);
  }

  // ===================== properties =====================

  /** The update is the weighted mean (2·stop + high) / 3, so the stop moves a third of the way to the high. */
  lemma ShadeIsWeightedMean(stop: real, high: real)
    ensures Shade(Some(stop), high) == Some((2.0 * stop + high) / 3.0)
    ensures high <= stop ==> high <= Shade(Some(stop), high).value <= stop
  {
  }

  lemma StepTransition(d: Data, st: State, i: int)
    requires Valid(d) && 1 <= i < |d.bars| && st.position in {0, -1} && st.positionBars >= 0
    requires st.position == 0 ==> st.positionBars == 0
    ensures var (next, code) := Step(d, st, i);
      next.position in {0, -1} && next.positionBars >= 0 && (next.position == 0 ==> next.positionBars == 0) &&
      code == Transition(st.position, next.position, -1, -1, 0)
  {
  }

  lemma {:induction false} StateShape(d: Data, i: int)
    requires Valid(d) && 0 <= i <= |d.bars|
    ensures StateBefore(d, i).position in {0, -1}
    ensures StateBefore(d, i).positionBars >= 0
    ensures StateBefore(d, i).position == 0 ==> StateBefore(d, i).positionBars == 0
    decreases i
  {
    if i > 1 {
      StateShape(d, i - 1);
      StepTransition(d, StateBefore(d, i - 1), i - 1);
    }
  }

  /** A short entry is written exactly when flat, SellCon1 and Avg2 < Avg3 held on the previous bar, and the bar has volume. */
  lemma EntryExactly(d: Data, i: int)
    requires Valid(d) && 1 <= i < |d.bars|
    ensures CallAt(d, i) == Some(-1) <==>
      StateBefore(d, i).position == 0 && d.sellCon1[i - 1] && Lt(d.avg2[i - 1], d.avg3[i - 1]) && d.bars[i].vol > 0.0
    ensures CallAt(d, i) == Some(-1) ==>
      StateBefore(d, i + 1).stop == Add(Some(d.bars[i].high), d.rangeS[i]) &&
      StateBefore(d, i + 1).prevStop == StateBefore(d, i + 1).stop
  {
    StateShape(d, i);
    assert StateBefore(d, i + 1) == Step(d, StateBefore(d, i), i).0;
  }

  /** An exit is written exactly when short, the bar has volume, and the fast average was above the middle one or the high reaches the lagged stop. */
  lemma ExitExactly(d: Data, i: int)
    requires Valid(d) && 1 <= i < |d.bars|
    ensures CallAt(d, i) == Some(0) <==>
      StateBefore(d, i).position == -1 && d.bars[i].vol > 0.0 &&
      (Gt(d.avg1[i - 1], d.avg2[i - 1]) || Ge(Some(d.bars[i].high), StateBefore(d, i).prevStop))
  {
    StateShape(d, i);
  }

  /** The stop is not updated on the exit bar: both stops are left as they were. */
  lemma NoUpdateOnExitBar(d: Data, i: int)
    requires Valid(d) && 1 <= i < |d.bars| && CallAt(d, i) == Some(0)
    ensures StateBefore(d, i + 1).stop == StateBefore(d, i).stop
    ensures StateBefore(d, i + 1).prevStop == StateBefore(d, i).prevStop
  {
    StateShape(d, i);
    assert StateBefore(d, i + 1) == Step(d, StateBefore(d, i), i).0;
  }

  /** The stop after the update on bar `j` of a trade entered on bar `e` (the entry stop for `j == e`). */
  function StopAfter(d: Data, e: int, j: int): Option<real>
    requires Valid(d) && 0 <= e <= j < |d.bars|
    decreases j
  {
    if j == e then Add(Some(d.bars[e].high), d.rangeS[e]) else Shade(StopAfter(d, e, j - 1), d.bars[j].high)
  }

  /**
   * The two-bar lag: in a trade entered on bar `e`, with no event since,
   * bar `i`'s test uses the stop of the update on bar `i - 2` (the entry stop
   * on the first two bars), while the current stop is that of bar `i - 1`.
   */
  lemma {:induction false} TwoBarLag(d: Data, e: int, i: int)
    requires Valid(d) && 1 <= e < i <= |d.bars|
    requires CallAt(d, e) == Some(-1)
    requires forall j :: e < j < i ==> CallAt(d, j) == None
    ensures StateBefore(d, i).position == -1
    ensures StateBefore(d, i).stop == StopAfter(d, e, i - 1)
    ensures StateBefore(d, i).prevStop == StopAfter(d, e, if i - 2 >= e then i - 2 else e)
    ensures StateBefore(d, i).positionBars == i - 1 - e
    decreases i
  {
    if i - 1 > e {
      TwoBarLag(d, e, i - 1);
      assert CallAt(d, i - 1) == None;
      assert StateBefore(d, i) == Step(d, StateBefore(d, i - 1), i - 1).0;
    } else {
      EntryExactly(d, e);
    }
  }

  function Positions(d: Data): (r: seq<int>)
    requires Valid(d)
    ensures |r| == |d.bars| + 1
  {
    seq(|d.bars| + 1, j requires 0 <= j <= |d.bars| => StateBefore(d, j).position)
  }

  lemma PositionsAt(d: Data, j: int)
    requires Valid(d) && 0 <= j <= |d.bars|
    ensures Positions(d)[j] == StateBefore(d, j).position
  {
  }

  lemma CallIsTransition(d: Data, j: int)
    requires Valid(d) && 0 <= j < |d.bars|
    ensures (if j >= 1 then CallAt(d, j) else None) ==
            Transition(StateBefore(d, j).position, StateBefore(d, j + 1).position, -1, -1, 0)
  {
    StateShape(d, j);
    if j >= 1 {
      var st := StateBefore(d, j);
      StepTransition(d, st, j);
      assert StateBefore(d, j + 1) == Step(d, st, j).0;
    }
  }

  lemma PositionAt(d: Data, j: int)
    requires Valid(d) && 0 <= j <= |d.bars|
    ensures Positions(d)[j] == 0 || Positions(d)[j] == -1
  {
    StateShape(d, j);
  }

  lemma ColumnAt(d: Data, j: int)
    requires Valid(d) && 0 <= j < |d.bars|
    ensures LoopColumn(d)[j] == Transition(Positions(d)[j], Positions(d)[j + 1], -1, -1, 0)
  {
    CallIsTransition(d, j);
    PositionsAt(d, j);
    PositionsAt(d, j + 1);
  }

  lemma LoopFollowsPositions(d: Data)
    requires Valid(d)
    ensures Follows(LoopColumn(d), Positions(d), -1, -1, 0)
  {
    forall j | 0 <= j <= |d.bars| ensures Positions(d)[j] == 0 || Positions(d)[j] == -1 {
      PositionAt(d, j);
    }
    forall j | 0 <= j < |d.bars| ensures LoopColumn(d)[j] == Transition(Positions(d)[j], Positions(d)[j + 1], -1, -1, 0) {
      ColumnAt(d, j);
    }
  }

  lemma NetFlat(p: L.Params, d: Data)
    requires Valid(d) && |d.bars| >= L.MinLength(p)
    requires |d.bars| > 0 ==> LoopColumn(d)[|d.bars| - 1] != Some(-1)
    ensures Signals(p, d).Produced?
    ensures Alternating(Codes(Signals(p, d).value), -1, 0) && |Codes(Signals(p, d).value)| % 2 == 0
  {
    LoopFollowsPositions(d);
    ForcedCloseBalances(LoopColumn(d), Positions(d), -1, -1, 0);
  }

  lemma LastBarEntryOverwritten(p: L.Params, d: Data)
    requires Valid(d) && |d.bars| >= L.MinLength(p) && |d.bars| >= 2
    requires CallAt(d, |d.bars| - 1) == Some(-1)
    ensures Signals(p, d).Produced? && Signals(p, d).value[|d.bars| - 1] == Some(0)
    ensures Codes(Signals(p, d).value) == Codes(LoopColumn(d)[..|d.bars| - 1]) + [0]
  {
    var n := |d.bars|;
    var st := StateBefore(d, n - 1);
    assert StateBefore(d, n).position == -1 by {
      StateShape(d, n - 1);
      StepTransition(d, st, n - 1);
      assert StateBefore(d, n) == Step(d, st, n - 1).0;
    }
    CodesOfLastWrite(LoopColumn(d), 0);
  }
}
