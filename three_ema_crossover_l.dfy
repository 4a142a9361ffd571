/*
 * Three_EMA_Crossover_System_L: go long the bar after the fast EMA crossed
 * above the middle one while the middle one is above the slow one; leave on
 * the opposite cross, or when the low falls to a trailing stop that moves a
 * quarter of the way towards each bar's low. Codes: 1 entry, 0 exit, NaN
 * elsewhere; a long still open at the end is closed on the last bar.
 */
module ThreeEmaCrossoverL {
  import opened Wrappers
  import opened Common
  import opened Events

  datatype Params = Params(avgLen1: nat, avgLen2: nat, avgLen3: nat, rLength: nat, lots: real)

  const Defaults := Params(6, 12, 28, 4, 1.0)

  // ----- indicators (the EMAs come from pandas' `ewm` and are inputs) -----

  /** `BuyCon1`: the fast average is above the middle one now and was not on the bar before. */
  function BuyCon1(avg1: Column, avg2: Column): (r: seq<bool>)
    requires |avg1| == |avg2|
    ensures |r| == |avg1|
    ensures forall i :: 0 <= i < |r| ==> (r[i] <==> Gt(avg1[i], avg2[i]) && i >= 1 && Le(avg1[i - 1], avg2[i - 1]))
  {
    seq(|avg1|, i requires 0 <= i < |avg1| => Gt(avg1[i], avg2[i]) && Le(Shift(avg1, 1)[i], Shift(avg2, 1)[i]))
  }

  /** A crossover cannot fire on two bars in a row: on the bar after one the fast average is already above. */
  lemma NoCrossoverTwiceInARow(avg1: Column, avg2: Column, i: int)
    requires |avg1| == |avg2| && 0 <= i && i + 1 < |avg1|
    requires BuyCon1(avg1, avg2)[i]
    ensures !BuyCon1(avg1, avg2)[i + 1]
  {
  }

  /** `MyRange`: the bar's high-low range. */
  function MyRange(bars: seq<Bar>): (r: seq<real>)
    ensures |r| == |bars|
  {
    seq(|bars|, i requires 0 <= i < |bars| => bars[i].high - bars[i].low)
  }

  /** `RangeL`: the RLength-bar mean of MyRange, NaN until the window fits. */
  function RangeL(bars: seq<Bar>, rLength: nat): (r: Column)
    requires rLength >= 1
    ensures |r| == |bars|
    ensures forall i :: 0 <= i < |bars| ==> (r[i].Some? <==> i >= rLength - 1)
  {
    seq(|bars|, i requires 0 <= i < |bars| =>
      if i >= rLength - 1 then Some(Mean(Window(MyRange(bars), i, rLength))) else None)
  }

  // ----- the signal loop -----

  datatype Data = Data(bars: seq<Bar>, avg1: Column, avg2: Column, avg3: Column, rangeL: Column, buyCon1: seq<bool>)

  predicate Valid(d: Data)
  {
    |d.avg1| == |d.bars| && |d.avg2| == |d.bars| && |d.avg3| == |d.bars| && |d.rangeL| == |d.bars| && |d.buyCon1| == |d.bars|
  }

  /** `long_stop_price` starts at 0 and is never reset between trades. */
  datatype State = State(position: int, positionBars: int, stop: Option<real>)

  const Init := State(0, 0, Some(0.0))

  function MinLength(p: Params): nat
  {
    var a := if p.avgLen1 >= p.avgLen2 then p.avgLen1 else p.avgLen2;
    var b := if a >= p.avgLen3 then a else p.avgLen3;
    if b >= p.rLength then b else p.rLength
  }

  /** The trailing update: a quarter of the way from the stop towards the low. */
  function Trail(stop: Option<real>, low: real): Option<real>
  {
    Add(stop, Mul(Sub(Some(low), stop), Some(0.25)))
  }

  predicate EntryCondition(d: Data, i: int)
    requires Valid(d) && 1 <= i < |d.bars|
  {
    d.buyCon1[i - 1] && Gt(d.avg2[i - 1], d.avg3[i - 1]) && d.bars[i].vol > 0.0
  }

  /** One iteration of the loop: the new state and the code written on bar `i`, if any. */
  function Step(d: Data, st: State, i: int): (State, Option<int>)
    requires Valid(d) && 1 <= i < |d.bars|
  {
    var held := if st.position == 1 then st.positionBars + 1 else st.positionBars;
    var volume := d.bars[i].vol > 0.0;
    if st.position == 0 then
      if EntryCondition(d, i) then (State(1, 0, st.stop), Some(1))
      else (st.(positionBars := held), None)
    else if st.position == 1 then
      if Lt(d.avg1[i - 1], d.avg2[i - 1]) && held > 0 && volume then (State(0, 0, st.stop), Some(0))
      else
        var stop := if held == 0 then Sub(Some(d.bars[i].low), d.rangeL[i])
                    else if held > 0 then Trail(st.stop, d.bars[i].low)
                    else st.stop;
        if held > 0 && Le(Some(d.bars[i].low), stop) && volume then (State(0, 0, stop), Some(0))
        else (State(1, held, stop), None)
    else (st.(positionBars := held), None)
  }

  /** The state when the iteration for bar `i` begins (the loop starts at bar 1). */
  function StateBefore(d: Data, i: int): State
    requires Valid(d) && 0 <= i <= |d.bars|
  {
    if i <= 1 then Init else Step(d, StateBefore(d, i - 1), i - 1).0
  }

  function CallAt(d: Data, i: int): Option<int>
    requires Valid(d) && 1 <= i < |d.bars|
  {
    Step(d, StateBefore(d, i), i).1
  }

  function LoopColumn(d: Data): (r: seq<Option<int>>)
    requires Valid(d)
    ensures |r| == |d.bars|
  {
    seq(|d.bars|, j requires 0 <= j < |d.bars| => if j >= 1 then CallAt(d, j) else None)
  }

  /** What `generate_signals` returns: an error below the longest of the four lengths. */
  function Signals(p: Params, d: Data): Outcome<seq<Option<int>>>
    requires Valid(d)
  {
    if |d.bars| < MinLength(p) then Raised("数据长度不足")
    else Produced(ForceClose(LoopColumn(d), StateBefore(d, |d.bars|).position == 1, 0))
  }

  method GenerateSignals(p: Params, d: Data) returns (out: Outcome<seq<Option<int>>>)
    requires Valid(d)
    ensures out == Signals(p, d)
  {
    var n := |d.bars|;
    var minLength := MinLength(p);
    if n < minLength {
      return Raised("数据长度不足");
    }
    var calls: seq<Option<int>> := seq(n, _ => None);
    var position, positionBars, longStopPrice := 0, 0, Some(0.0);
    if n <= 1 {
      assert calls == LoopColumn(d);
      return Produced(calls);
    }
    var i := 1;
    while i < n
      invariant 1 <= i <= n
      invariant State(position, positionBars, longStopPrice) == StateBefore(d, i)
      invariant positionBars >= 0
      invariant |calls| == n
      invariant forall j :: 0 <= j < i ==> calls[j] == if j >= 1 then CallAt(d, j) else None
      invariant forall j :: i <= j < n ==> calls[j] == None
    {
      if position == 1 {
        positionBars := positionBars + 1;
      }
      if position == 0 {
        if d.buyCon1[i - 1] && Gt(d.avg2[i - 1], d.avg3[i - 1]) && d.bars[i].vol > 0.0 {
          calls := calls[i := Some(1)];
          position := 1;
          positionBars := 0;
        }
      } else if position == 1 {
        if Lt(d.avg1[i - 1], d.avg2[i - 1]) && positionBars > 0 && d.bars[i].vol > 0.0 {
          calls := calls[i := Some(0)];
          position := 0;
          positionBars := 0;
        } else {
          if positionBars == 0 {
            // the seed `low - RangeL` is unreachable: the count was just incremented
            assert false;
          } else if positionBars > 0 {
            longStopPrice := Trail(longStopPrice, d.bars[i].low);
          }
          if positionBars > 0 && Le(Some(d.bars[i].low), longStopPrice) && d.bars[i].vol > 0.0 {
            calls := calls[i := Some(0)];
            position := 0;
            positionBars := 0;
          }
        }
      }
      i := i + 1;
    }
    if position == 1 {
      calls := calls[n - 1 := Some(0)];
    }
    assert calls == ForceClose(LoopColumn(d), position == 1, 0);
    return Produced(calls);
  }

  // ===================== properties =====================

  /** The trailing stop's test against the updated stop says the same as a test against the stop before the update. */
  lemma TrailedStopTestsLikeOldStop(stop: real, low: real)
    ensures Le(Some(low), Trail(Some(stop), low)) <==> low <= stop
    ensures Trail(Some(stop), low).Some?
    ensures low <= stop ==> low <= Trail(Some(stop), low).value <= stop
    ensures stop <= low ==> stop <= Trail(Some(stop), low).value <= low
  {
  }

  lemma StepTransition(d: Data, st: State, i: int)
    requires Valid(d) && 1 <= i < |d.bars| && st.position in {0, 1} && st.positionBars >= 0 && st.stop.Some?
    ensures var (next, code) := Step(d, st, i);
      next.position in {0, 1} && next.positionBars >= 0 && next.stop.Some? &&
      code == Transition(st.position, next.position, 1, 1, 0)
  {
  }

  /** Flat or long, a non-negative bar count, and a stop that is never NaN. */
  lemma {:induction false} StateShape(d: Data, i: int)
    requires Valid(d) && 0 <= i <= |d.bars|
    ensures StateBefore(d, i).position in {0, 1}
    ensures StateBefore(d, i).positionBars >= 0
    ensures StateBefore(d, i).stop.Some?
    decreases i
  {
    if i > 1 {
      StateShape(d, i - 1);
      StepTransition(d, StateBefore(d, i - 1), i - 1);
    }
  }

  /**
   * While long the bar count is incremented before the checks, so it is at
   * least 1 whenever the exits are tested: the `position_bars == 0` stop
   * seed (low minus RangeL) never runs, and every update trails the stop.
   */
  lemma StopSeedIsDead(d: Data, i: int)
    requires Valid(d) && 1 <= i < |d.bars| && StateBefore(d, i).position == 1
    ensures StateBefore(d, i).positionBars + 1 >= 1
    ensures CallAt(d, i) == None ==>
      StateBefore(d, i + 1).stop == Trail(StateBefore(d, i).stop, d.bars[i].low)
  {
    StateShape(d, i);
    assert StateBefore(d, i + 1) == Step(d, StateBefore(d, i), i).0;
  }

  /** A long entry is written exactly when flat, BuyCon1 and Avg2 > Avg3 held on the previous bar, and the bar has volume. */
  lemma EntryExactly(d: Data, i: int)
    requires Valid(d) && 1 <= i < |d.bars|
    ensures CallAt(d, i) == Some(1) <==>
      StateBefore(d, i).position == 0 && d.buyCon1[i - 1] && Gt(d.avg2[i - 1], d.avg3[i - 1]) && d.bars[i].vol > 0.0
  {
    StateShape(d, i);
  }

  /**
   * An exit is written exactly when long, the bar has volume, and either
   * the fast average was below the middle one or the low reaches the
   * trailed stop (equivalently the stop before trailing).
   */
  lemma ExitExactly(d: Data, i: int)
    requires Valid(d) && 1 <= i < |d.bars|
    ensures var st := StateBefore(d, i);
      CallAt(d, i) == Some(0) <==>
      st.position == 1 && d.bars[i].vol > 0.0 &&
      (Lt(d.avg1[i - 1], d.avg2[i - 1]) || Le(Some(d.bars[i].low), st.stop))
  {
    StateShape(d, i);
    TrailedStopTestsLikeOldStop(StateBefore(d, i).stop.value, d.bars[i].low);
  }

  /** The stop survives an exit: the next trade starts trailing from where the last one left off. */
  lemma StopNotResetByExit(d: Data, i: int)
    requires Valid(d) && 1 <= i < |d.bars| && CallAt(d, i) == Some(0)
    ensures StateBefore(d, i + 1).stop.Some?
    ensures StateBefore(d, i + 1).stop == StateBefore(d, i).stop ||
            StateBefore(d, i + 1).stop == Trail(StateBefore(d, i).stop, d.bars[i].low)
  {
    StateShape(d, i);
    assert StateBefore(d, i + 1) == Step(d, StateBefore(d, i), i).0;
  }

  function Positions(d: Data): (r: seq<int>)
    requires Valid(d)
    ensures |r| == |d.bars| + 1
  {
    seq(|d.bars| + 1, j requires 0 <= j <= |d.bars| => StateBefore(d, j).position)
  }

  lemma PositionsAt(d: Data, j: int)
    requires Valid(d) && 0 <= j <= |d.bars|
    ensures Positions(d)[j] == StateBefore(d, j).position
  {
  }

  lemma CallIsTransition(d: Data, j: int)
    requires Valid(d) && 0 <= j < |d.bars|
    ensures (if j >= 1 then CallAt(d, j) else None) ==
            Transition(StateBefore(d, j).position, StateBefore(d, j + 1).position, 1, 1, 0)
  {
    StateShape(d, j);
    if j >= 1 {
      var st := StateBefore(d, j);
      StepTransition(d, st, j);
      assert StateBefore(d, j + 1) == Step(d, st, j).0;
    }
  }

  lemma PositionAt(d: Data, j: int)
    requires Valid(d) && 0 <= j <= |d.bars|
    ensures Positions(d)[j] == 0 || Positions(d)[j] == 1
  {
    StateShape(d, j);
  }

  lemma ColumnAt(d: Data, j: int)
    requires Valid(d) && 0 <= j < |d.bars|
    ensures LoopColumn(d)[j] == Transition(Positions(d)[j], Positions(d)[j + 1], 1, 1, 0)
  {
    CallIsTransition(d, j);
    PositionsAt(d, j);
    PositionsAt(d, j + 1);
  }

  lemma LoopFollowsPositions(d: Data)
    requires Valid(d)
    ensures Follows(LoopColumn(d), Positions(d), 1, 1, 0)
  {
    forall j | 0 <= j <= |d.bars| ensures Positions(d)[j] == 0 || Positions(d)[j] == 1 {
      PositionAt(d, j);
    }
    forall j | 0 <= j < |d.bars| ensures LoopColumn(d)[j] == Transition(Positions(d)[j], Positions(d)[j + 1], 1, 1, 0) {
      ColumnAt(d, j);
    }
  }

  /** Unless an entry lands on the last bar, the returned column alternates entry/exit and ends flat. */
  lemma NetFlat(p: Params, d: Data)
    requires Valid(d) && |d.bars| >= MinLength(p)
    requires |d.bars| > 0 ==> LoopColumn(d)[|d.bars| - 1] != Some(1)
    ensures Signals(p, d).Produced?
    ensures Alternating(Codes(Signals(p, d).value), 1, 0) && |Codes(Signals(p, d).value)| % 2 == 0
  {
    LoopFollowsPositions(d);
    ForcedCloseBalances(LoopColumn(d), Positions(d), 1, 1, 0);
  }

  /** An entry on the last bar is overwritten by the forced close. */
  lemma LastBarEntryOverwritten(p: Params, d: Data)
    requires Valid(d) && |d.bars| >= MinLength(p) && |d.bars| >= 2
    requires CallAt(d, |d.bars| - 1) == Some(1)
    ensures Signals(p, d).Produced? && Signals(p, d).value[|d.bars| - 1] == Some(0)
    ensures Codes(Signals(p, d).value) == Codes(LoopColumn(d)[..|d.bars| - 1]) + [0]
  {
    var n := |d.bars|;
    var st := StateBefore(d, n - 1);
    assert StateBefore(d, n).position == 1 by {
      StateShape(d, n - 1);
      StepTransition(d, st, n - 1);
      assert StateBefore(d, n) == Step(d, st, n - 1).0;
    }
    CodesOfLastWrite(LoopColumn(d), 0);
  }
}
