/*
 * Going_in_Style_L: a long entry when the previous bar made a Length-bar
 * high and this bar's high reaches the previous close plus Trigger·ATR; the
 * trade is then protected by a parabolic stop that closes a fraction af of
 * its distance to the highest high since entry each bar, af growing by
 * Acceleration on every new high up to 0.2. Codes: 1 entry, 0 exit.
 */
module GoingInStyleL {
  import opened Wrappers
  import opened Common
  import opened Events

  datatype Params = Params(length: nat, trigger: real, acceleration: real, firstBarMultp: real)

  const Defaults := Params(10, 0.79, 0.05, 5.0)

  /** The ceiling of the acceleration factor. */
  const AfCap: real := 0.2

  /** `Condition1`: the bar's high is above the highest of the `Length` highs before it (`highest` is that column). */
  function Condition1(bars: seq<Bar>, highest: Column): (r: seq<bool>)
    requires |highest| == |bars|
    ensures |r| == |bars|
    ensures forall i :: 0 <= i < |bars| ==> (r[i] <==> Gt(Some(bars[i].high), highest[i]))
  {
    seq(|bars|, i requires 0 <= i < |bars| => Gt(Some(bars[i].high), highest[i]))
  }

  /**
   * The frame after `calculate_indicators`: the input columns `ATR`
   * (AvgTrueRange), `highest` (Highest of the previous highs) and `tr`
   * (TrueRange), and the two columns computed from them that the loop reads.
   */
  datatype Data = Data(bars: seq<Bar>, atr: Column, highest: Column, tr: Column, condition1: seq<bool>, stopAtr: Column)

  /** Every column is as long as the frame. */
  predicate Sized(d: Data)
  {
    |d.atr| == |d.bars| && |d.highest| == |d.bars| && |d.tr| == |d.bars| &&
    |d.condition1| == |d.bars| && |d.stopAtr| == |d.bars|
  }

  /** A sized frame whose `Condition1` and `StopATR` are computed as `calculate_indicators` computes them. */
  predicate Valid(d: Data)
  {
    Sized(d) &&
    d.condition1 == Condition1(d.bars, d.highest) &&
    d.stopAtr == RollingMeanOf(d.tr, 3)
  }

  /** `calculate_indicators`: `Condition1` from the highs and `highest`, `StopATR` as the 3-bar mean of `tr`. */
  function CalculateIndicators(bars: seq<Bar>, atr: Column, highest: Column, tr: Column): (d: Data)
    requires |atr| == |bars| && |highest| == |bars| && |tr| == |bars|
    ensures Valid(d)
    ensures d.bars == bars && d.atr == atr && d.highest == highest && d.tr == tr
  {
    Data(bars, atr, highest, tr, Condition1(bars, highest), RollingMeanOf(tr, 3))
  }

  /** `stop_price`, `prev_stop_price`, `high_value` and `prev_high_value` start as None. */
  datatype State = State(position: int, positionBars: int, stop: Option<real>, prevStop: Option<real>,
                         peak: Option<real>, prevPeak: Option<real>, af: real)

  function Init(p: Params): State
  {
    State(0, 0, None, None, None, None, p.acceleration)
  }

  predicate EntryCondition(p: Params, d: Data, i: int)
    requires Sized(d) && 1 <= i < |d.bars|
  {
    d.condition1[i - 1] &&
    Ge(Some(d.bars[i].high), Add(Some(d.bars[i - 1].close), Mul(d.atr[i - 1], Some(p.trigger)))) &&
    d.bars[i].vol > 0.0
  }

  /** The stop set on the entry bar: the low less FirstBarMultp times StopATR. */
  function InitialStop(p: Params, d: Data, i: int): Option<real>
    requires Sized(d) && 0 <= i < |d.bars|
  {
    Sub(Some(d.bars[i].low), Mul(d.stopAtr[i], Some(p.firstBarMultp)))
  }

  /** af after a bar that made a new high over `prevPeak`: up by Acceleration, but not past the cap. */
  function NextAf(p: Params, af: real, newPeak: Option<real>, prevPeak: Option<real>): real
  {
    if Gt(newPeak, prevPeak) && af < AfCap then af + MinReal(p.acceleration, AfCap - af) else af
  }

  /** The parabolic stop: a fraction af of the way from the stop to the peak. */
  function Trail(stop: Option<real>, af: real, peak: Option<real>): Option<real>
  {
    Add(stop, Mul(Some(af), Sub(peak, stop)))
  }

  function Step(p: Params, d: Data, st: State, i: int): (State, Option<int>)
    requires Sized(d) && 1 <= i < |d.bars|
  {
    var count := if st.position != 0 then st.positionBars + 1 else st.positionBars;
    var b := d.bars[i];
    if EntryCondition(p, d, i) then
      if st.position == 0 then
        (State(1, 0, InitialStop(p, d, i), st.prevStop, Some(b.high), Some(b.high), p.acceleration), Some(1))
      else (st.(positionBars := count), None)
    else if st.position == 1 then
      if count == 0 then
        (State(1, count, InitialStop(p, d, i), InitialStop(p, d, i), Some(b.high), Some(b.high), p.acceleration), None)
      else if count > 0 then
        var prevStop, prevPeak := st.stop, st.peak;
        var peak := if Gt(Some(b.high), st.peak) then Some(b.high) else st.peak;
        var af := if Gt(Some(b.high), st.peak) then NextAf(p, st.af, peak, prevPeak) else st.af;
        var stop := Trail(st.stop, af, peak);
        if Le(Some(b.low), prevStop) && b.vol > 0.0 then (State(0, 0, None, None, None, None, p.acceleration), Some(0))
        else (State(1, count, stop, prevStop, peak, prevPeak, af), None)
      else (st.(positionBars := count), None)
    else (st.(positionBars := count), None)
  }

  function StateBefore(p: Params, d: Data, i: int): State
    requires Sized(d) && 0 <= i <= |d.bars|
  {
    if i <= 1 then Init(p) else Step(p, d, StateBefore(p, d, i - 1), i - 1).0
  }

  function CallAt(p: Params, d: Data, i: int): Option<int>
    requires Sized(d) && 1 <= i < |d.bars|
  {
    Step(p, d, StateBefore(p, d, i), i).1
  }

  function LoopColumn(p: Params, d: Data): (r: seq<Option<int>>)
    requires Sized(d)
    ensures |r| == |d.bars|
  {
    seq(|d.bars|, j requires 0 <= j < |d.bars| => if j >= 1 then CallAt(p, d, j) else None)
  }

  /**
   * An empty frame below Length bars. The forced close is the chained
   * assignment `signals.iloc[-1]['call'] = 0`, which writes into the frame or
   * into a copy depending on pandas; `forcedCloseWrites` says which.
   */
  function Signals(p: Params, d: Data, forcedCloseWrites: bool): Outcome<seq<Option<int>>>
    requires Sized(d)
  {
    if |d.bars| < p.length then EmptyFrame
    else Produced(ForceClose(LoopColumn(p, d), forcedCloseWrites && StateBefore(p, d, |d.bars|).position == 1, 0))
  }

  method GenerateSignals(p: Params, d: Data, forcedCloseWrites: bool) returns (out: Outcome<seq<Option<int>>>)
    requires Valid(d)
    ensures out == Signals(p, d, forcedCloseWrites)
  {
    if |d.bars| < p.length {
      return EmptyFrame;
    }
    var calls := SignalLoop(p, d, forcedCloseWrites);
    return Produced(calls);
  }

  /** The bar loop of `generate_signals` and the chained forced close after it. */
  method SignalLoop(p: Params, d: Data, forcedCloseWrites: bool) returns (calls: seq<Option<int>>)
    requires Sized(d)
    ensures calls == ForceClose(LoopColumn(p, d), forcedCloseWrites && StateBefore(p, d, |d.bars|).position == 1, 0)
  {
    var n := |d.bars|;
    calls := seq(n, _ => None);
    var position, positionBars := 0, 0;
    var stop: Option<real>, prevStop: Option<real>, peak: Option<real>, prevPeak: Option<real> := None, None, None, None;
    var af := p.acceleration;
    var i := 1;
    while i < n
      invariant 1 <= i <= n || n == 0
      invariant n > 0 ==> State(position, positionBars, stop, prevStop, peak, prevPeak, af) == StateBefore(p, d, i)
      invariant n == 0 ==> position == 0
      invariant positionBars >= 0
      invariant |calls| == n
      invariant forall j :: 0 <= j < i && j < n ==> calls[j] == if j >= 1 then CallAt(p, d, j) else None
      invariant forall j :: i <= j < n ==> calls[j] == None
    {
      if position != 0 {
        positionBars := positionBars + 1;
      }
      var b := d.bars[i];
      if d.condition1[i - 1] && Ge(Some(b.high), Add(Some(d.bars[i - 1].close), Mul(d.atr[i - 1], Some(p.trigger)))) && b.vol > 0.0 {
        if position == 0 {
          calls := calls[i := Some(1)];
          position := 1;
          positionBars := 0;
          stop := Sub(Some(b.low), Mul(d.stopAtr[i], Some(p.firstBarMultp)));
          peak := Some(b.high);
          prevPeak := peak;
          af := p.acceleration;
        }
      } else if position == 1 {
        if positionBars == 0 {
          // unreachable: the count was incremented at the top of the bar
          assert false;
        } else if positionBars > 0 {
          prevStop := stop;
          prevPeak := peak;
          if Gt(Some(b.high), peak) {
            peak := Some(b.high);
            if Gt(peak, prevPeak) && af < AfCap {
              af := af + MinReal(p.acceleration, AfCap - af);
            }
          }
          stop := Add(stop, Mul(Some(af), Sub(peak, stop)));
          if Le(Some(b.low), prevStop) && b.vol > 0.0 {
            calls := calls[i := Some(0)];
            position := 0;
            positionBars := 0;
            stop, prevStop, peak, prevPeak := None, None, None, None;
            af := p.acceleration;
          }
        }
      }
      i := i + 1;
    }
    if forcedCloseWrites && position == 1 {
      calls := calls[n - 1 := Some(0)];
    }
    assert calls == ForceClose(LoopColumn(p, d), forcedCloseWrites && StateBefore(p, d, n).position == 1, 0);
  }

  // ===================== properties =====================

  function AfCeiling(p: Params): real
  {
    MaxReal(p.acceleration, AfCap)
  }

  /**
   * What holds between bars: flat or long; flat with nothing recorded and af
   * at Acceleration; long with a peak; af never above max(Acceleration, 0.2)
   * and, for a non-negative Acceleration, never below it.
   */
  predicate Shape(p: Params, st: State)
  {
    st.position in {0, 1} && st.positionBars >= 0 &&
    (st.position == 0 ==> st.stop == None && st.peak == None && st.af == p.acceleration) &&
    (st.position == 1 ==> st.peak.Some?) &&
    st.af <= AfCeiling(p) &&
    (p.acceleration >= 0.0 ==> st.af >= p.acceleration)
  }

  lemma StepTransition(p: Params, d: Data, st: State, i: int)
    requires Valid(d) && 1 <= i < |d.bars| && Shape(p, st)
    ensures var (next, code) := Step(p, d, st, i);
      Shape(p, next) && code == Transition(st.position, next.position, 1, 1, 0)
  {
  }

  lemma {:induction false} StateShape(p: Params, d: Data, i: int)
    requires Valid(d) && 0 <= i <= |d.bars|
    ensures Shape(p, StateBefore(p, d, i))
    decreases i
  {
    if i > 1 {
      StateShape(p, d, i - 1);
      StepTransition(p, d, StateBefore(p, d, i - 1), i - 1);
    }
  }

  /** An entry is written exactly when flat and the entry condition holds; it records the first-bar stop and the bar's high as peak. */
  lemma EntryExactly(p: Params, d: Data, i: int)
    requires Valid(d) && 1 <= i < |d.bars|
    ensures CallAt(p, d, i) == Some(1) <==> StateBefore(p, d, i).position == 0 && EntryCondition(p, d, i)
    ensures CallAt(p, d, i) == Some(1) ==>
      var next := Step(p, d, StateBefore(p, d, i), i).0;
      next.stop == InitialStop(p, d, i) && next.peak == Some(d.bars[i].high) && next.af == p.acceleration
  {
    StateShape(p, d, i);
  }

  /**
   * Entry with `Condition1` read through: 1 is written exactly when flat, the
   * previous bar's high is above the `highest` of the bars before it, this
   * bar's high reaches the previous close plus Trigger·ATR, and it has volume.
   */
  lemma EntryOnNewHigh(p: Params, d: Data, i: int)
    requires Valid(d) && 1 <= i < |d.bars|
    ensures CallAt(p, d, i) == Some(1) <==>
      StateBefore(p, d, i).position == 0 &&
      Gt(Some(d.bars[i - 1].high), d.highest[i - 1]) &&
      Ge(Some(d.bars[i].high), Add(Some(d.bars[i - 1].close), Mul(d.atr[i - 1], Some(p.trigger)))) &&
      d.bars[i].vol > 0.0
  {
    EntryExactly(p, d, i);
  }

  /**
   * The stop set on an entry bar is the low less FirstBarMultp times the mean
   * true range of that bar and the two before it; it is NaN on bar 1 or when
   * one of those true ranges is.
   */
  lemma EntryStopFromTrueRange(p: Params, d: Data, i: int)
    requires Valid(d) && 1 <= i < |d.bars| && CallAt(p, d, i) == Some(1)
    ensures var stop := Step(p, d, StateBefore(p, d, i), i).0.stop;
      (stop.Some? <==> i >= 2 && d.tr[i - 2].Some? && d.tr[i - 1].Some? && d.tr[i].Some?) &&
      (stop.Some? ==> stop.value == d.bars[i].low - (d.tr[i - 2].value + d.tr[i - 1].value + d.tr[i].value) / 3.0 * p.firstBarMultp)
  {
    EntryExactly(p, d, i);
    if i >= 2 {
      var tr := d.tr;
      assert ColumnSum(tr, i - 2, i - 1) == Add(Some(0.0), tr[i - 2]);
      assert ColumnSum(tr, i - 2, i) == Add(ColumnSum(tr, i - 2, i - 1), tr[i - 1]);
      assert RollingSum(tr, 3)[i] == Add(ColumnSum(tr, i - 2, i), tr[i]);
    }
  }

  /** While long, a bar that meets the entry condition leaves stop, peak and af untouched and cannot exit. */
  lemma EntryConditionSkipsStop(p: Params, d: Data, i: int)
    requires Valid(d) && 1 <= i < |d.bars|
    requires StateBefore(p, d, i).position == 1 && EntryCondition(p, d, i)
    ensures var st := StateBefore(p, d, i);
      var next := Step(p, d, st, i).0;
      CallAt(p, d, i) == None &&
      next == st.(positionBars := st.positionBars + 1)
  {
  }

  /**
   * An exit is written exactly when long, the entry condition does not
   * hold, the low reaches the stop of the bar before and the bar has
   * volume; the exit clears stop and peak and resets af.
   */
  lemma ExitExactly(p: Params, d: Data, i: int)
    requires Valid(d) && 1 <= i < |d.bars|
    ensures var st := StateBefore(p, d, i);
      CallAt(p, d, i) == Some(0) <==>
      st.position == 1 && !EntryCondition(p, d, i) && Le(Some(d.bars[i].low), st.stop) && d.bars[i].vol > 0.0
    ensures CallAt(p, d, i) == Some(0) ==> Step(p, d, StateBefore(p, d, i), i).0 == Init(p)
  {
    StateShape(p, d, i);
  }

  /** With 0 <= af <= 1 and a stop at or below the peak, trailing moves the stop up but not past the peak. */
  lemma TrailBetween(stop: real, af: real, peak: real)
    requires 0.0 <= af <= 1.0 && stop <= peak
    ensures Trail(Some(stop), af, Some(peak)).Some?
    ensures stop <= Trail(Some(stop), af, Some(peak)).value <= peak
  {
    MulNonNegative(af, peak - stop);
    MulNonNegative(1.0 - af, peak - stop);
  }

  /** Conditions under which the stop starts at or below the peak and af stays in [0, 1]. */
  predicate Sensible(p: Params, d: Data)
    requires Valid(d)
  {
    WellFormed(d.bars) && 0.0 <= p.acceleration <= 1.0 && p.firstBarMultp >= 0.0 &&
    forall k :: 0 <= k < |d.bars| && d.stopAtr[k].Some? ==> d.stopAtr[k].value >= 0.0
  }

  predicate StopBelowPeak(st: State)
  {
    st.position == 1 && st.stop.Some? ==> st.peak.Some? && st.stop.value <= st.peak.value
  }

  lemma StepKeepsStopBelowPeak(p: Params, d: Data, st: State, i: int)
    requires Valid(d) && Sensible(p, d) && 1 <= i < |d.bars| && Shape(p, st) && StopBelowPeak(st)
    ensures StopBelowPeak(Step(p, d, st, i).0)
    ensures var next := Step(p, d, st, i).0;
      st.position == 1 && next.position == 1 && st.stop.Some? && next.stop.Some? ==> st.stop.value <= next.stop.value
  {
    var b := d.bars[i];
    assert WellFormedBar(b);
    if d.stopAtr[i].Some? {
      MulNonNegative(d.stopAtr[i].value, p.firstBarMultp);
    }
    if st.position == 1 && !EntryCondition(p, d, i) && st.stop.Some? {
      var peak := if Gt(Some(b.high), st.peak) then Some(b.high) else st.peak;
      var af := if Gt(Some(b.high), st.peak) then NextAf(p, st.af, peak, st.peak) else st.af;
      assert AfCeiling(p) <= 1.0;
      TrailBetween(st.stop.value, af, peak.value);
    }
  }

  /**
   * Under sensible inputs the parabolic stop of an open trade never exceeds
   * the highest high since entry, and never falls from one bar to the next
   * while the trade stays open.
   */
  lemma {:induction false} StopTrailsPeak(p: Params, d: Data, i: int)
    requires Valid(d) && Sensible(p, d) && 0 <= i <= |d.bars|
    ensures StopBelowPeak(StateBefore(p, d, i))
    ensures 2 <= i < |d.bars| ==>
      var st, next := StateBefore(p, d, i), StateBefore(p, d, i + 1);
      st.position == 1 && next.position == 1 && st.stop.Some? && next.stop.Some? ==> st.stop.value <= next.stop.value
    decreases i
  {
    if i > 1 {
      StopTrailsPeak(p, d, i - 1);
      StateShape(p, d, i - 1);
      StepKeepsStopBelowPeak(p, d, StateBefore(p, d, i - 1), i - 1);
    }
    if 2 <= i < |d.bars| {
      StateShape(p, d, i);
      StepKeepsStopBelowPeak(p, d, StateBefore(p, d, i), i);
    }
  }

  function Positions(p: Params, d: Data): (r: seq<int>)
    requires Sized(d)
    ensures |r| == |d.bars| + 1
  {
    seq(|d.bars| + 1, j requires 0 <= j <= |d.bars| => StateBefore(p, d, j).position)
  }

  lemma PositionsAt(p: Params, d: Data, j: int)
    requires Valid(d) && 0 <= j <= |d.bars|
    ensures Positions(p, d)[j] == StateBefore(p, d, j).position
  {
  }

  lemma CallIsTransition(p: Params, d: Data, j: int)
    requires Valid(d) && 0 <= j < |d.bars|
    ensures (if j >= 1 then CallAt(p, d, j) else None) ==
            Transition(StateBefore(p, d, j).position, StateBefore(p, d, j + 1).position, 1, 1, 0)
  {
    StateShape(p, d, j);
    if j >= 1 {
      var st := StateBefore(p, d, j);
      StepTransition(p, d, st, j);
      assert StateBefore(p, d, j + 1) == Step(p, d, st, j).0;
    }
  }

  lemma PositionAt(p: Params, d: Data, j: int)
    requires Valid(d) && 0 <= j <= |d.bars|
    ensures Positions(p, d)[j] == 0 || Positions(p, d)[j] == 1
  {
    StateShape(p, d, j);
  }

  lemma ColumnAt(p: Params, d: Data, j: int)
    requires Valid(d) && 0 <= j < |d.bars|
    ensures LoopColumn(p, d)[j] == Transition(Positions(p, d)[j], Positions(p, d)[j + 1], 1, 1, 0)
  {
    CallIsTransition(p, d, j);
    PositionsAt(p, d, j);
    PositionsAt(p, d, j + 1);
  }

  lemma LoopFollowsPositions(p: Params, d: Data)
    requires Valid(d)
    ensures Follows(LoopColumn(p, d), Positions(p, d), 1, 1, 0)
  {
    forall j | 0 <= j <= |d.bars| ensures Positions(p, d)[j] == 0 || Positions(p, d)[j] == 1 {
      PositionAt(p, d, j);
    }
    forall j | 0 <= j < |d.bars|
      ensures LoopColumn(p, d)[j] == Transition(Positions(p, d)[j], Positions(p, d)[j + 1], 1, 1, 0)
    {
      ColumnAt(p, d, j);
    }
  }

  lemma SignalsOfLongEnough(p: Params, d: Data, w: bool)
    requires Valid(d) && |d.bars| >= p.length
    ensures Signals(p, d, w) == Produced(ForceClose(LoopColumn(p, d), w && Positions(p, d)[|d.bars|] == 1, 0))
  {
    PositionsAt(p, d, |d.bars|);
  }

  /** When the forced close writes, entries and exits alternate and the column ends flat, unless an entry lands on the last bar. */
  lemma NetFlat(p: Params, d: Data)
    requires Valid(d) && |d.bars| >= p.length
    requires |d.bars| > 0 ==> LoopColumn(p, d)[|d.bars| - 1] != Some(1)
    ensures Signals(p, d, true).Produced?
    ensures Alternating(Codes(Signals(p, d, true).value), 1, 0) && |Codes(Signals(p, d, true).value)| % 2 == 0
  {
    var col, pos := LoopColumn(p, d), Positions(p, d);
    var out := ForceClose(col, pos[|col|] == 1, 0);
    assert Alternating(Codes(out), 1, 0) && |Codes(out)| % 2 == 0 by {
      LoopFollowsPositions(p, d);
      ForcedCloseBalances(col, pos, 1, 1, 0);
    }
    SignalsOfLongEnough(p, d, true);
  }

  /** When the chained assignment does not write, a trade still open at the end stays open: the codes end on an entry. */
  lemma ForcedCloseLost(p: Params, d: Data)
    requires Valid(d) && |d.bars| >= p.length && StateBefore(p, d, |d.bars|).position == 1
    ensures Signals(p, d, false) == Produced(LoopColumn(p, d))
    ensures Alternating(Codes(LoopColumn(p, d)), 1, 0) && |Codes(LoopColumn(p, d))| % 2 == 1
  {
    var col, pos := LoopColumn(p, d), Positions(p, d);
    assert Alternating(Codes(col), 1, 0) && |Codes(col)| % 2 == (if pos[|col|] == 1 then 1 else 0) by {
      LoopFollowsPositions(p, d);
      FollowsAlternates(col, pos, 1, 1, 0);
    }
    PositionsAt(p, d, |d.bars|);
  }

  /** When the forced close writes, an entry on the last bar is overwritten by it. */
  lemma LastBarEntryOverwritten(p: Params, d: Data)
    requires Valid(d) && p.length <= |d.bars| && |d.bars| >= 2
    requires CallAt(p, d, |d.bars| - 1) == Some(1)
    ensures Signals(p, d, true).Produced? && Signals(p, d, true).value[|d.bars| - 1] == Some(0)
    ensures Codes(Signals(p, d, true).value) == Codes(LoopColumn(p, d)[..|d.bars| - 1]) + [0]
  {
    var n := |d.bars|;
    var st := StateBefore(p, d, n - 1);
    assert StateBefore(p, d, n).position == 1 by {
      StateShape(p, d, n - 1);
      StepTransition(p, d, st, n - 1);
      assert StateBefore(p, d, n) == Step(p, d, st, n - 1).0;
    }
    CodesOfLastWrite(LoopColumn(p, d), 0);
  }
}
