/*
 * VWM_S: a short-only system on volume-weighted momentum. A bar on which the
 * VWM line crosses below zero is a bear setup: it records the close as the
 * entry reference `SEPrice` and starts the setup counter `SSetup`. The system
 * sells when the low falls a fraction of the average true range below the
 * reference, and covers after the VWM line crosses back above zero. Codes in
 * the `position` column: -1 entry, 0 exit, NaN elsewhere. Momentum, VWM,
 * AATR and the two crossing flags are inputs.
 */
module VwmS {
  import opened Wrappers
  import opened Common
  import opened Events

  datatype Params = Params(momLen: nat, avgLen: nat, atrLen: nat, atrPcnt: real, setupLen: real)

  const Defaults := Params(5, 20, 5, 0.5, 5.0)

  // ===================== the setup columns =====================

  /** `np.where(BearSetup, 0, nan)`. */
  function BearMarks(bear: seq<bool>): (r: Column)
    ensures |r| == |bear|
  {
    seq(|bear|, k requires 0 <= k < |bear| => if bear[k] then Some(0.0) else None)
  }

  /** `SSetup`: the forward-filled marks plus one, with the remaining NaN filled by 0. */
  function SSetupColumn(bear: seq<bool>): (r: seq<real>)
    ensures |r| == |bear|
  {
    var filled := FFill(BearMarks(bear));
    seq(|bear|, k requires 0 <= k < |bear| => if filled[k].Some? then filled[k].value + 1.0 else 0.0)
  }

  /** `SEPrice`: the close on bear-setup bars, NaN on every other bar (it is not forward-filled). */
  function SEPriceColumn(bars: seq<Bar>, bear: seq<bool>): (r: Column)
    requires |bear| == |bars|
    ensures |r| == |bars|
  {
    seq(|bars|, k requires 0 <= k < |bars| => if bear[k] then Some(bars[k].close) else None)
  }

  /** Some bar up to `k` is a bear setup. */
  predicate BearSeen(bear: seq<bool>, k: int)
    requires k < |bear|
  {
    exists j :: 0 <= j <= k && bear[j]
  }

  lemma {:induction false} MarksFilledAfterFirstSetup(bear: seq<bool>, k: int)
    requires 0 <= k < |bear|
    ensures FFillAt(BearMarks(bear), k) == if BearSeen(bear, k) then Some(0.0) else None
    decreases k
  {
    var m := BearMarks(bear);
    if !bear[k] && k > 0 {
      MarksFilledAfterFirstSetup(bear, k - 1);
      if BearSeen(bear, k) {
        var j :| 0 <= j <= k && bear[j];
        assert j <= k - 1;
      } else {
        assert !BearSeen(bear, k - 1);
      }
    } else if bear[k] {
      assert BearSeen(bear, k);
    }
  }

  /**
   * The setup counter never counts: it is 0 before the first bear setup and
   * 1 on that bar and on every bar after it, so it never exceeds 1.
   */
  lemma SSetupIsSeenFlag(bear: seq<bool>, k: int)
    requires 0 <= k < |bear|
    ensures SSetupColumn(bear)[k] == if BearSeen(bear, k) then 1.0 else 0.0
    ensures 0.0 <= SSetupColumn(bear)[k] <= 1.0
  {
    MarksFilledAfterFirstSetup(bear, k);
  }

  // ===================== the signal loop =====================

  /** The frame `generate_signals` reads: the bars and the columns `calculate_indicators` added. */
  datatype Data = Data(bars: seq<Bar>, aatr: Column, bullSetup: seq<bool>, bearSetup: seq<bool>,
                       sePrice: Column, sSetup: seq<real>)

  predicate Valid(d: Data)
  {
    var n := |d.bars|;
    |d.aatr| == n && |d.bullSetup| == n && |d.bearSetup| == n && |d.sePrice| == n && |d.sSetup| == n
  }

  /** The two setup columns are the ones `calculate_indicators` derives from the bear-setup flags. */
  predicate SetupsDerived(d: Data)
    requires Valid(d)
  {
    d.sePrice == SEPriceColumn(d.bars, d.bearSetup) && d.sSetup == SSetupColumn(d.bearSetup)
  }

  /** The position the loop reads as `i - 1`: a NumPy array read at -1 is its last element. */
  function Prev(d: Data, i: int): (k: int)
    requires Valid(d) && 0 <= i < |d.bars|
    ensures 0 <= k < |d.bars|
  {
    if i >= 1 then i - 1 else |d.bars| - 1
  }

  /** `low[i] <= SEPrice[i-1] - ATRPcnt * AATR[i-1]`, false when either column is NaN. */
  predicate BelowEntryLevel(p: Params, d: Data, i: int)
    requires Valid(d) && 0 <= i < |d.bars|
  {
    var k := Prev(d, i);
    Le(Some(d.bars[i].low), Sub(d.sePrice[k], Mul(Some(p.atrPcnt), d.aatr[k])))
  }

  predicate EntryCondition(p: Params, d: Data, i: int)
    requires Valid(d) && 0 <= i < |d.bars|
  {
    BelowEntryLevel(p, d, i) && d.sSetup[Prev(d, i)] <= p.setupLen && d.sSetup[i] >= 1.0 && d.bars[i].vol > 0.0
  }

  datatype State = State(position: int, positionBars: int)

  const Init := State(0, 0)

  /** One iteration of the loop: the new state and the code written on bar `i`, if any. */
  function Step(p: Params, d: Data, st: State, i: int): (State, Option<int>)
    requires Valid(d) && 0 <= i < |d.bars|
  {
    var held := if st.position != 0 then st.positionBars + 1 else st.positionBars;
    if st.position == 0 && EntryCondition(p, d, i) then (State(-1, 0), Some(-1))
    else if st.position == -1 && d.bullSetup[Prev(d, i)] && d.bars[i].vol > 0.0 && held > 0 then (State(0, 0), Some(0))
    else (st.(positionBars := held), None)
  }

  /** The state when the iteration for bar `i` begins (the loop starts at bar `AvgLen`). */
  function StateBefore(p: Params, d: Data, i: int): State
    requires Valid(d) && 0 <= i <= |d.bars|
  {
    if i <= p.avgLen then Init else Step(p, d, StateBefore(p, d, i - 1), i - 1).0
  }

  function CallAt(p: Params, d: Data, i: int): Option<int>
    requires Valid(d) && p.avgLen <= i < |d.bars|
  {
    Step(p, d, StateBefore(p, d, i), i).1
  }

  function LoopColumn(p: Params, d: Data): (r: seq<Option<int>>)
    requires Valid(d)
    ensures |r| == |d.bars|
  {
    seq(|d.bars|, j requires 0 <= j < |d.bars| => if j >= p.avgLen then CallAt(p, d, j) else None)
  }

  /** What `generate_signals` returns: an error below `AvgLen` bars. */
  function Signals(p: Params, d: Data): Outcome<seq<Option<int>>>
    requires Valid(d)
  {
    if |d.bars| < p.avgLen then Raised("数据长度不足")
    else Produced(ForceClose(LoopColumn(p, d), StateBefore(p, d, |d.bars|).position == -1, 0))
  }

  method GenerateSignals(p: Params, d: Data) returns (out: Outcome<seq<Option<int>>>)
    requires Valid(d)
    ensures out == Signals(p, d)
  {
    var n := |d.bars|;
    if n < p.avgLen {
      return Raised("数据长度不足");
    }
    var position: seq<Option<int>> := seq(n, _ => None);
    var currentPosition, positionBars := 0, 0;
    var i := p.avgLen;
    while i < n
      invariant p.avgLen <= i <= n
      invariant State(currentPosition, positionBars) == StateBefore(p, d, i)
      invariant |position| == n
      invariant forall j :: 0 <= j < i ==> position[j] == if j >= p.avgLen then CallAt(p, d, j) else None
      invariant forall j :: i <= j < n ==> position[j] == None
    {
      if currentPosition != 0 {
        positionBars := positionBars + 1;
      }
      var k := Prev(d, i);
      if currentPosition == 0 && Le(Some(d.bars[i].low), Sub(d.sePrice[k], Mul(Some(p.atrPcnt), d.aatr[k]))) &&
         d.sSetup[k] <= p.setupLen && d.sSetup[i] >= 1.0 && d.bars[i].vol > 0.0 {
        position := position[i := Some(-1)];
        currentPosition := -1;
        positionBars := 0;
      } else if currentPosition == -1 && d.bullSetup[k] && d.bars[i].vol > 0.0 && positionBars > 0 {
        position := position[i := Some(0)];
        currentPosition := 0;
        positionBars := 0;
      }
      i := i + 1;
    }
    if currentPosition == -1 {
      position := position[n - 1 := Some(0)];
    }
    assert position == ForceClose(LoopColumn(p, d), currentPosition == -1, 0);
    return Produced(position);
  }

  // ===================== properties =====================

  /** Flat or short, with a non-negative bar count. */
  lemma {:induction false} StateShape(p: Params, d: Data, i: int)
    requires Valid(d) && 0 <= i <= |d.bars|
    ensures StateBefore(p, d, i).position in {0, -1}
    ensures StateBefore(p, d, i).positionBars >= 0
    decreases i
  {
    if i > p.avgLen {
      StateShape(p, d, i - 1);
    }
  }

  /** A short entry is written exactly when flat and the entry condition holds. */
  lemma EntryExactly(p: Params, d: Data, i: int)
    requires Valid(d) && p.avgLen <= i < |d.bars|
    ensures CallAt(p, d, i) == Some(-1) <==> StateBefore(p, d, i).position == 0 && EntryCondition(p, d, i)
  {
    StateShape(p, d, i);
  }

  /**
   * On derived setup columns an entry needs a bear setup on the bar the loop
   * reads as `i - 1`: `SEPrice` is NaN everywhere else. The `SSetup[i-1] <=
   * SetupLen` test always passes once `SetupLen >= 1`, and `SSetup[i] >= 1`
   * then says no more than that a bear setup was seen.
   */
  lemma EntryNeedsBearSetup(p: Params, d: Data, i: int)
    requires Valid(d) && SetupsDerived(d) && p.avgLen <= i < |d.bars|
    ensures CallAt(p, d, i) == Some(-1) ==> d.bearSetup[Prev(d, i)]
    ensures p.setupLen >= 1.0 ==> d.sSetup[Prev(d, i)] <= p.setupLen
    ensures d.sSetup[i] >= 1.0 <==> BearSeen(d.bearSetup, i)
  {
    StateShape(p, d, i);
    SSetupIsSeenFlag(d.bearSetup, Prev(d, i));
    SSetupIsSeenFlag(d.bearSetup, i);
  }

  /**
   * A cover is written exactly when short, the bull setup held on the
   * previous bar and the bar has volume: the `position_bars > 0` test always
   * passes, the count having just been incremented.
   */
  lemma ExitExactly(p: Params, d: Data, i: int)
    requires Valid(d) && p.avgLen <= i < |d.bars|
    ensures CallAt(p, d, i) == Some(0) <==>
      StateBefore(p, d, i).position == -1 && d.bullSetup[Prev(d, i)] && d.bars[i].vol > 0.0
  {
    StateShape(p, d, i);
  }

  /** In particular a short can be covered on the very next bar. */
  lemma CoverOnBarAfterEntry(p: Params, d: Data, i: int)
    requires Valid(d) && p.avgLen <= i && i + 1 < |d.bars|
    requires CallAt(p, d, i) == Some(-1) && d.bullSetup[i] && d.bars[i + 1].vol > 0.0
    ensures CallAt(p, d, i + 1) == Some(0)
  {
    StateShape(p, d, i);
    assert StateBefore(p, d, i + 1) == Step(p, d, StateBefore(p, d, i), i).0;
  }

  function Positions(p: Params, d: Data): (r: seq<int>)
    requires Valid(d)
    ensures |r| == |d.bars| + 1
  {
    seq(|d.bars| + 1, j requires 0 <= j <= |d.bars| => StateBefore(p, d, j).position)
  }

  lemma PositionsAt(p: Params, d: Data, j: int)
    requires Valid(d) && 0 <= j <= |d.bars|
    ensures Positions(p, d)[j] == StateBefore(p, d, j).position
  {
  }

  lemma CallIsTransition(p: Params, d: Data, j: int)
    requires Valid(d) && 0 <= j < |d.bars|
    ensures (if j >= p.avgLen then CallAt(p, d, j) else None) ==
            Transition(StateBefore(p, d, j).position, StateBefore(p, d, j + 1).position, -1, -1, 0)
  {
    StateShape(p, d, j);
    if j >= p.avgLen {
      assert StateBefore(p, d, j + 1) == Step(p, d, StateBefore(p, d, j), j).0;
    }
  }

  lemma PositionAt(p: Params, d: Data, j: int)
    requires Valid(d) && 0 <= j <= |d.bars|
    ensures Positions(p, d)[j] == 0 || Positions(p, d)[j] == -1
  {
    StateShape(p, d, j);
  }

  lemma ColumnAt(p: Params, d: Data, j: int)
    requires Valid(d) && 0 <= j < |d.bars|
    ensures LoopColumn(p, d)[j] == Transition(Positions(p, d)[j], Positions(p, d)[j + 1], -1, -1, 0)
  {
    CallIsTransition(p, d, j);
    PositionsAt(p, d, j);
    PositionsAt(p, d, j + 1);
  }

  lemma LoopFollowsPositions(p: Params, d: Data)
    requires Valid(d)
    ensures Follows(LoopColumn(p, d), Positions(p, d), -1, -1, 0)
  {
    forall j | 0 <= j <= |d.bars| ensures Positions(p, d)[j] == 0 || Positions(p, d)[j] == -1 {
      PositionAt(p, d, j);
    }
    forall j | 0 <= j < |d.bars| ensures LoopColumn(p, d)[j] == Transition(Positions(p, d)[j], Positions(p, d)[j + 1], -1, -1, 0) {
      ColumnAt(p, d, j);
    }
  }

  /** Unless an entry lands on the last bar, the position column alternates entry/cover and ends flat. */
  lemma NetFlat(p: Params, d: Data)
    requires Valid(d) && |d.bars| >= p.avgLen
    requires |d.bars| > 0 ==> LoopColumn(p, d)[|d.bars| - 1] != Some(-1)
    ensures Signals(p, d).Produced?
    ensures Alternating(Codes(Signals(p, d).value), -1, 0) && |Codes(Signals(p, d).value)| % 2 == 0
  {
    LoopFollowsPositions(p, d);
    ForcedCloseBalances(LoopColumn(p, d), Positions(p, d), -1, -1, 0);
  }

  /** An entry on the last bar is overwritten by the forced cover. */
  lemma LastBarEntryOverwritten(p: Params, d: Data)
    requires Valid(d) && |d.bars| >= p.avgLen + 1
    requires CallAt(p, d, |d.bars| - 1) == Some(-1)
    ensures Signals(p, d).Produced? && Signals(p, d).value[|d.bars| - 1] == Some(0)
    ensures Codes(Signals(p, d).value) == Codes(LoopColumn(p, d)[..|d.bars| - 1]) + [0]
  {
    var n := |d.bars|;
    assert StateBefore(p, d, n).position == -1 by {
      CallIsTransition(p, d, n - 1);
    }
    CodesOfLastWrite(LoopColumn(p, d), 0);
  }
}
