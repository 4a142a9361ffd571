/*
 * DisplacedBoll_S: a Bollinger channel whose centre line (the AvgLen-bar
 * mean of closes) is displaced Disp bars forward; a short entry when the low
 * reaches the bottom of the channel as it stood on the previous bar, covered
 * when the high reaches its top. Codes: -1 entry, 0 exit, NaN elsewhere.
 */
module DisplacedBollS {
  import opened Wrappers
  import opened Common
  import opened Events

  datatype Params = Params(avgLen: nat, disp: nat, sdLen: nat, sDev: real)

  const Defaults := Params(3, 16, 12, 2.0)

  /** `AvgVal`: the AvgLen-bar mean of closes. */
  function AvgVal(p: Params, bars: seq<Bar>): (r: Column)
    requires p.avgLen >= 1
    ensures |r| == |bars|
  {
    RollingMean(Closes(bars), p.avgLen)
  }

  /** `squared_diff[k]`: the square of the close's distance from the SDLen-bar mean ending at the same bar `k`. */
  function SquaredDiff(closes: seq<real>, sdLen: nat, k: int): (r: real)
    requires sdLen >= 1 && sdLen - 1 <= k < |closes|
    ensures r >= 0.0
  {
    var dev := closes[k] - Mean(Window(closes, k, sdLen));
    dev * dev
  }

  /** The sum of `squared_diff` over bars lo .. hi-1. */
  function SumSquaredDiff(closes: seq<real>, sdLen: nat, lo: int, hi: int): real
    requires sdLen >= 1 && sdLen - 1 <= lo <= hi <= |closes|
    decreases hi - lo
  {
    if lo == hi then 0.0 else SumSquaredDiff(closes, sdLen, lo, hi - 1) + SquaredDiff(closes, sdLen, hi - 1)
  }

  lemma {:induction false} SumSquaredDiffNonNegative(closes: seq<real>, sdLen: nat, lo: int, hi: int)
    requires sdLen >= 1 && sdLen - 1 <= lo <= hi <= |closes|
    ensures SumSquaredDiff(closes, sdLen, lo, hi) >= 0.0
    decreases hi - lo
  {
    if lo < hi {
      SumSquaredDiffNonNegative(closes, sdLen, lo, hi - 1);
    }
  }

  /**
   * `variance`: the SDLen-bar rolling sum of `squared_diff` over SDLen - 1.
   * It is NaN until the window holds no NaN (bar 2·SDLen - 2) and, since
   * 0/0 is NaN, always when SDLen is 1.
   */
  function Variance(closes: seq<real>, sdLen: nat): (r: Column)
    requires sdLen >= 1
    ensures |r| == |closes|
    ensures forall i :: 0 <= i < |closes| ==> (r[i].Some? <==> sdLen >= 2 && i >= 2 * sdLen - 2)
    ensures forall i :: 0 <= i < |closes| && r[i].Some? ==> r[i].value >= 0.0
  {
    var r := seq(|closes|, i requires 0 <= i < |closes| =>
      if sdLen >= 2 && i >= 2 * sdLen - 2
      then Some(SumSquaredDiff(closes, sdLen, i - sdLen + 1, i + 1) / ((sdLen - 1) as real))
      else None);
    forall i | 0 <= i < |closes| && r[i].Some? ensures r[i].value >= 0.0 {
      SumSquaredDiffNonNegative(closes, sdLen, i - sdLen + 1, i + 1);
    }
    r
  }

  /** `np.sqrt(variance)`: NaN exactly where the variance is, otherwise its non-negative square root. */
  predicate IsSqrt(variance: Column, root: Column)
  {
    |root| == |variance| &&
    forall i :: 0 <= i < |variance| ==>
      (root[i].Some? <==> variance[i].Some?) &&
      (root[i].Some? ==> root[i].value >= 0.0 && root[i].value * root[i].value == variance[i].value)
  }

  /** `SDmult`, the square root of the variance times SDev: with a non-negative SDev the channel half-width is never negative, and it is NaN exactly where the variance is. */
  lemma SDmultNonNegative(variance: Column, root: Column, sDev: real, i: int)
    requires IsSqrt(variance, root) && sDev >= 0.0 && 0 <= i < |root|
    ensures Scaled(root, sDev)[i].Some? <==> variance[i].Some?
    ensures Scaled(root, sDev)[i].Some? ==> Scaled(root, sDev)[i].value >= 0.0
  {
    if root[i].Some? {
      MulNonNegative(root[i].value, sDev);
    }
  }

  /** `DispTop`: the displaced mean plus SDmult. */
  function DispTop(avgVal: Column, disp: nat, sdMult: Column): (r: Column)
    requires |sdMult| == |avgVal|
    ensures |r| == |avgVal|
  {
    seq(|avgVal|, i requires 0 <= i < |avgVal| => Add(Shift(avgVal, disp)[i], sdMult[i]))
  }

  /** `DispBottom`: the displaced mean minus SDmult. */
  function DispBottom(avgVal: Column, disp: nat, sdMult: Column): (r: Column)
    requires |sdMult| == |avgVal|
    ensures |r| == |avgVal|
  {
    seq(|avgVal|, i requires 0 <= i < |avgVal| => Sub(Shift(avgVal, disp)[i], sdMult[i]))
  }

  /** The channel is 2·SDmult wide and centred on the mean of bar i - Disp; it is NaN for the first Disp bars. */
  lemma ChannelAroundDisplacedMean(avgVal: Column, disp: nat, sdMult: Column, i: int)
    requires |sdMult| == |avgVal| && 0 <= i < |avgVal|
    ensures i < disp ==> DispTop(avgVal, disp, sdMult)[i] == None && DispBottom(avgVal, disp, sdMult)[i] == None
    ensures DispTop(avgVal, disp, sdMult)[i].Some? <==> i >= disp && avgVal[i - disp].Some? && sdMult[i].Some?
    ensures DispTop(avgVal, disp, sdMult)[i].Some? ==>
      var top, bottom := DispTop(avgVal, disp, sdMult)[i].value, DispBottom(avgVal, disp, sdMult)[i].value;
      top - bottom == 2.0 * sdMult[i].value && top + bottom == 2.0 * avgVal[i - disp].value
  {
  }

  /** The indicator columns `calculate_indicators` adds; `root` is the square root of the variance column. */
  datatype Indicators = Indicators(avgVal: Column, variance: Column, sdMult: Column, dispTop: Column, dispBottom: Column)

  function CalculateIndicators(p: Params, bars: seq<Bar>, root: Column): (ind: Indicators)
    requires p.avgLen >= 1 && p.sdLen >= 1 && IsSqrt(Variance(Closes(bars), p.sdLen), root)
    ensures |ind.sdMult| == |bars| && |ind.dispTop| == |bars| && |ind.dispBottom| == |bars|
    ensures ind.avgVal == RollingMean(Closes(bars), p.avgLen)
    ensures ind.variance == Variance(Closes(bars), p.sdLen)
  {
    var avg := AvgVal(p, bars);
    var sdMult := Scaled(root, p.sDev);
    Indicators(avg, Variance(Closes(bars), p.sdLen), sdMult, DispTop(avg, p.disp, sdMult), DispBottom(avg, p.disp, sdMult))
  }

  /** With SDev >= 0, wherever the channel is defined its bottom is not above its top. */
  lemma ChannelOrdered(p: Params, bars: seq<Bar>, root: Column, i: int)
    requires p.avgLen >= 1 && p.sdLen >= 1 && IsSqrt(Variance(Closes(bars), p.sdLen), root)
    requires p.sDev >= 0.0 && 0 <= i < |bars|
    ensures var ind := CalculateIndicators(p, bars, root);
      ind.dispTop[i].Some? ==> ind.dispBottom[i].Some? && ind.dispBottom[i].value <= ind.dispTop[i].value
  {
    var ind := CalculateIndicators(p, bars, root);
    ChannelAroundDisplacedMean(ind.avgVal, p.disp, ind.sdMult, i);
    SDmultNonNegative(ind.variance, root, p.sDev, i);
  }

  // ===================== signal loop =====================

  datatype Data = Data(bars: seq<Bar>, dispTop: Column, dispBottom: Column)

  predicate Valid(d: Data)
  {
    |d.dispTop| == |d.bars| && |d.dispBottom| == |d.bars|
  }

  datatype State = State(position: int, barsSinceEntry: int)

  const Init := State(0, 0)

  function Step(d: Data, st: State, i: int): (State, Option<int>)
    requires Valid(d) && 1 <= i < |d.bars|
  {
    if st.position == 0 then
      if Le(Some(d.bars[i].low), d.dispBottom[i - 1]) then (State(-1, 0), Some(-1)) else (st, None)
    else if st.position == -1 then
      var count := st.barsSinceEntry + 1;
      if count > 0 && Ge(Some(d.bars[i].high), d.dispTop[i - 1]) then (State(0, 0), Some(0))
      else (State(-1, count), None)
    else (st, None)
  }

  function StateBefore(d: Data, i: int): State
    requires Valid(d) && 0 <= i <= |d.bars|
  {
    if i <= 1 then Init else Step(d, StateBefore(d, i - 1), i - 1).0
  }

  function CallAt(d: Data, i: int): Option<int>
    requires Valid(d) && 1 <= i < |d.bars|
  {
    Step(d, StateBefore(d, i), i).1
  }

  function LoopColumn(d: Data): (r: seq<Option<int>>)
    requires Valid(d)
    ensures |r| == |d.bars|
  {
    seq(|d.bars|, j requires 0 <= j < |d.bars| => if j >= 1 then CallAt(d, j) else None)
  }

  /** There is no minimum-length check: any frame, even an empty one, yields a column. */
  function Signals(d: Data): seq<Option<int>>
    requires Valid(d)
  {
    ForceClose(LoopColumn(d), StateBefore(d, |d.bars|).position == -1, 0)
  }

  lemma SignalsForm(d: Data)
    requires Valid(d)
    ensures Signals(d) == ForceClose(LoopColumn(d), Positions(d)[|d.bars|] == -1, 0)
  {
    PositionsAt(d, |d.bars|);
  }

  method GenerateSignals(d: Data) returns (calls: seq<Option<int>>)
    requires Valid(d)
    ensures calls == Signals(d)
  {
    var n := |d.bars|;
    calls := seq(n, _ => None);
    var position, barsSinceEntry := 0, 0;
    var i := 1;
    while i < n
      invariant 1 <= i <= n || n == 0
      invariant n > 0 ==> State(position, barsSinceEntry) == StateBefore(d, i)
      invariant n == 0 ==> position == 0
      invariant |calls| == n
      invariant forall j :: 0 <= j < i && j < n ==> calls[j] == if j >= 1 then CallAt(d, j) else None
      invariant forall j :: i <= j < n ==> calls[j] == None
    {
      if position == 0 {
        if Le(Some(d.bars[i].low), d.dispBottom[i - 1]) {
          calls := calls[i := Some(-1)];
          position := -1;
          barsSinceEntry := 0;
        }
      } else if position == -1 {
        barsSinceEntry := barsSinceEntry + 1;
        if barsSinceEntry > 0 {
          if Ge(Some(d.bars[i].high), d.dispTop[i - 1]) {
            calls := calls[i := Some(0)];
            position := 0;
            barsSinceEntry := 0;
          }
        }
      }
      i := i + 1;
    }
    if position == -1 {
      calls := calls[n - 1 := Some(0)];
    }
    assert calls == ForceClose(LoopColumn(d), StateBefore(d, n).position == -1, 0);
  }

  // ===================== properties =====================

  lemma StepTransition(d: Data, st: State, i: int)
    requires Valid(d) && 1 <= i < |d.bars| && st.position in {0, -1} && st.barsSinceEntry >= 0
    ensures var (next, code) := Step(d, st, i);
      next.position in {0, -1} && next.barsSinceEntry >= 0 &&
      code == Transition(st.position, next.position, -1, -1, 0)
  {
  }

  lemma {:induction false} StateShape(d: Data, i: int)
    requires Valid(d) && 0 <= i <= |d.bars|
    ensures StateBefore(d, i).position in {0, -1}
    ensures StateBefore(d, i).barsSinceEntry >= 0
    decreases i
  {
    if i > 1 {
      StateShape(d, i - 1);
      StepTransition(d, StateBefore(d, i - 1), i - 1);
    }
  }

  /** A short entry is written exactly when flat and the low reaches the previous bar's DispBottom; volume plays no part. */
  lemma EntryExactly(d: Data, i: int)
    requires Valid(d) && 1 <= i < |d.bars|
    ensures CallAt(d, i) == Some(-1) <==> StateBefore(d, i).position == 0 && Le(Some(d.bars[i].low), d.dispBottom[i - 1])
  {
    StateShape(d, i);
  }

  /** A cover is written exactly when short and the high reaches the previous bar's DispTop: the bar-count guard never blocks it. */
  lemma ExitExactly(d: Data, i: int)
    requires Valid(d) && 1 <= i < |d.bars|
    ensures CallAt(d, i) == Some(0) <==> StateBefore(d, i).position == -1 && Ge(Some(d.bars[i].high), d.dispTop[i - 1])
  {
    StateShape(d, i);
  }

  /** So a trade can be covered on the very next bar after its entry. */
  lemma ExitOnBarAfterEntry(d: Data, e: int)
    requires Valid(d) && 1 <= e && e + 1 < |d.bars|
    requires CallAt(d, e) == Some(-1) && Ge(Some(d.bars[e + 1].high), d.dispTop[e])
    ensures CallAt(d, e + 1) == Some(0)
  {
    EntryExactly(d, e);
    assert StateBefore(d, e + 1) == Step(d, StateBefore(d, e), e).0;
    ExitExactly(d, e + 1);
  }

  function Positions(d: Data): (r: seq<int>)
    requires Valid(d)
    ensures |r| == |d.bars| + 1
  {
    seq(|d.bars| + 1, j requires 0 <= j <= |d.bars| => StateBefore(d, j).position)
  }

  lemma PositionsAt(d: Data, j: int)
    requires Valid(d) && 0 <= j <= |d.bars|
    ensures Positions(d)[j] == StateBefore(d, j).position
  {
  }

  lemma CallIsTransition(d: Data, j: int)
    requires Valid(d) && 0 <= j < |d.bars|
    ensures (if j >= 1 then CallAt(d, j) else None) ==
            Transition(StateBefore(d, j).position, StateBefore(d, j + 1).position, -1, -1, 0)
  {
    StateShape(d, j);
    if j >= 1 {
      var st := StateBefore(d, j);
      StepTransition(d, st, j);
      assert StateBefore(d, j + 1) == Step(d, st, j).0;
    }
  }

  lemma PositionAt(d: Data, j: int)
    requires Valid(d) && 0 <= j <= |d.bars|
    ensures Positions(d)[j] == 0 || Positions(d)[j] == -1
  {
    StateShape(d, j);
  }

  lemma ColumnAt(d: Data, j: int)
    requires Valid(d) && 0 <= j < |d.bars|
    ensures LoopColumn(d)[j] == Transition(Positions(d)[j], Positions(d)[j + 1], -1, -1, 0)
  {
    CallIsTransition(d, j);
    PositionsAt(d, j);
    PositionsAt(d, j + 1);
  }

  lemma LoopFollowsPositions(d: Data)
    requires Valid(d)
    ensures Follows(LoopColumn(d), Positions(d), -1, -1, 0)
  {
    forall j | 0 <= j <= |d.bars| ensures Positions(d)[j] == 0 || Positions(d)[j] == -1 {
      PositionAt(d, j);
    }
    forall j | 0 <= j < |d.bars| ensures LoopColumn(d)[j] == Transition(Positions(d)[j], Positions(d)[j + 1], -1, -1, 0) {
      ColumnAt(d, j);
    }
  }

  /** Entries and covers alternate and the column ends flat, unless an entry lands on the last bar. */
  lemma NetFlat(d: Data)
    requires Valid(d)
    requires |d.bars| > 0 ==> LoopColumn(d)[|d.bars| - 1] != Some(-1)
    ensures Alternating(Codes(Signals(d)), -1, 0) && |Codes(Signals(d))| % 2 == 0
  {
    var col, pos := LoopColumn(d), Positions(d);
    assert Alternating(Codes(ForceClose(col, pos[|col|] == -1, 0)), -1, 0) &&
           |Codes(ForceClose(col, pos[|col|] == -1, 0))| % 2 == 0 by {
      LoopFollowsPositions(d);
      ForcedCloseBalances(col, pos, -1, -1, 0);
    }
    SignalsForm(d);
  }

  /** An entry on the last bar is overwritten by the forced cover. */
  lemma LastBarEntryOverwritten(d: Data)
    requires Valid(d) && |d.bars| >= 2
    requires CallAt(d, |d.bars| - 1) == Some(-1)
    ensures Signals(d)[|d.bars| - 1] == Some(0)
    ensures Codes(Signals(d)) == Codes(LoopColumn(d)[..|d.bars| - 1]) + [0]
  {
    var n := |d.bars|;
    var st := StateBefore(d, n - 1);
    assert StateBefore(d, n).position == -1 by {
      StateShape(d, n - 1);
      StepTransition(d, st, n - 1);
      assert StateBefore(d, n) == Step(d, st, n - 1).0;
    }
    CodesOfLastWrite(LoopColumn(d), 0);
  }
}
