/*
 * NoHurrySystem_S: a short entry when the low breaks below the ChanLength
 * lowest low as it stood ChanDelay + 1 bars earlier (and the previous low
 * had not), covered when the high reaches the lower of the lowest low since
 * entry plus TrailingATRs·ATR and the delayed channel high plus one tick.
 * Codes: -1 entry and 1 exit (not 0), NaN elsewhere.
 */
module NoHurrySystemS {
  import opened Wrappers
  import opened Common
  import opened Events

  datatype Params = Params(chanLength: nat, chanDelay: nat, trailingATRs: real, atrLength: nat)

  const Defaults := Params(20, 15, 3.0, 10)

  /** `minpoint`: the price tick, the constant 1. */
  const MinPoint: real := 1.0

  /** The frame the loop reads; `UpperChan`/`LowerChan` are the ChanLength-bar highest high and lowest low. */
  datatype Data = Data(bars: seq<Bar>, upperChan: Column, lowerChan: Column, atrVal: Column)

  predicate Valid(d: Data)
  {
    |d.upperChan| == |d.bars| && |d.lowerChan| == |d.bars| && |d.atrVal| == |d.bars|
  }

  /** `PosLow` starts as None; `bars_since_entry` is reset only at entries. */
  datatype State = State(position: int, posLow: Option<real>, barsSinceEntry: int)

  const Init := State(0, None, 0)

  /** `con`: the low crosses below the delayed lower channel. */
  predicate EntryCondition(p: Params, d: Data, i: int)
    requires Valid(d) && 1 <= i < |d.bars|
  {
    var delayed := Shift(d.lowerChan, p.chanDelay + 1);
    Le(Some(d.bars[i].low), delayed[i]) && Gt(Some(d.bars[i - 1].low), delayed[i - 1])
  }

  /** The stop line: the lower of the trailing ATR stop and the delayed channel high plus a tick. */
  function Stopline(p: Params, d: Data, posLow: Option<real>, i: int): Option<real>
    requires Valid(d) && 0 <= i < |d.bars|
  {
    PyMin(Add(posLow, Shift(d.atrVal, 1)[i]), Add(Shift(d.upperChan, p.chanDelay + 1)[i], Some(MinPoint)))
  }

  /** `PosLow` after bar `i`'s update: the bar's low if lower. */
  function LowerPosLow(posLow: Option<real>, low: real): Option<real>
  {
    if Lt(Some(low), posLow) then Some(low) else posLow
  }

  function Step(p: Params, d: Data, st: State, i: int): (State, Option<int>)
    requires Valid(d) && 1 <= i < |d.bars|
  {
    if st.position == 0 then
      if EntryCondition(p, d, i) then (State(-1, Some(d.bars[i].low), 0), Some(-1))
      else (st, None)
    else if st.position == -1 then
      var count := st.barsSinceEntry + 1;
      var posLow := if count == 0 then Some(d.bars[i].low) else LowerPosLow(st.posLow, d.bars[i].low);
      if count > 0 && Ge(Some(d.bars[i].high), Stopline(p, d, posLow, i)) then (State(0, None, count), Some(1))
      else (State(-1, posLow, count), None)
    else (st, None)
  }

  function Start(p: Params): nat
  {
    p.chanLength + p.chanDelay
  }

  function StateBefore(p: Params, d: Data, i: int): State
    requires Valid(d) && 0 <= i <= |d.bars|
  {
    if i <= Start(p) || i <= 1 then Init else Step(p, d, StateBefore(p, d, i - 1), i - 1).0
  }

  function CallAt(p: Params, d: Data, i: int): Option<int>
    requires Valid(d) && Start(p) <= i < |d.bars| && 1 <= i
  {
    Step(p, d, StateBefore(p, d, i), i).1
  }

  /** The loop's column; a start of 0 would read bar -1 (`iloc[-1]`), which the model treats as no signal. */
  function LoopColumn(p: Params, d: Data): (r: seq<Option<int>>)
    requires Valid(d)
    ensures |r| == |d.bars|
  {
    seq(|d.bars|, j requires 0 <= j < |d.bars| => if j >= Start(p) && j >= 1 then CallAt(p, d, j) else None)
  }

  function Signals(p: Params, d: Data): Outcome<seq<Option<int>>>
    requires Valid(d)
  {
    if |d.bars| < Start(p) then Raised("数据长度不足")
    else Produced(ForceClose(LoopColumn(p, d), StateBefore(p, d, |d.bars|).position == -1, 1))
  }

  /**
   * The loop body on a bar while short: count the bar, lower `PosLow`, and
   * test the high against the stop line; `stopped` says whether the short is
   * covered on this bar.
   */
  method ShortBar(p: Params, d: Data, i: int, posLow: Option<real>, barsSinceEntry: int)
    returns (stopped: bool, newLow: Option<real>, count: int)
    requires Valid(d) && 1 <= i < |d.bars| && barsSinceEntry >= 0
    ensures count == barsSinceEntry + 1
    ensures stopped <==> Step(p, d, State(-1, posLow, barsSinceEntry), i).1 == Some(1)
    ensures stopped ==> Step(p, d, State(-1, posLow, barsSinceEntry), i).0 == State(0, None, count)
    ensures !stopped ==> Step(p, d, State(-1, posLow, barsSinceEntry), i) == (State(-1, newLow, count), None)
  {
    count := barsSinceEntry + 1;
    newLow := posLow;
    if count == 0 {
      // unreachable: the count was just incremented from a non-negative value
      assert false;
    } else if Lt(Some(d.bars[i].low), newLow) {
      newLow := Some(d.bars[i].low);
    }
    stopped := false;
    if count > 0 {
      var stopline := PyMin(Add(newLow, Shift(d.atrVal, 1)[i]),
                            Add(Shift(d.upperChan, p.chanDelay + 1)[i], Some(MinPoint)));
      stopped := Ge(Some(d.bars[i].high), stopline);
    }
  }

  method GenerateSignals(p: Params, d: Data) returns (out: Outcome<seq<Option<int>>>)
    requires Valid(d) && Start(p) >= 1
    ensures out == Signals(p, d)
  {
    var n := |d.bars|;
    var start := p.chanLength + p.chanDelay;
    if n < start {
      return Raised("数据长度不足");
    }
    var calls: seq<Option<int>> := seq(n, _ => None);
    var position, posLow, barsSinceEntry := 0, None, 0;
    var i := start;
    while i < n
      invariant start <= i <= n
      invariant State(position, posLow, barsSinceEntry) == StateBefore(p, d, i)
      invariant barsSinceEntry >= 0
      invariant |calls| == n
      invariant forall j :: 0 <= j < i ==> calls[j] == if j >= start then CallAt(p, d, j) else None
      invariant forall j :: i <= j < n ==> calls[j] == None
    {
      var delayed := Shift(d.lowerChan, p.chanDelay + 1);
      var con := Le(Some(d.bars[i].low), delayed[i]) && Gt(Some(d.bars[i - 1].low), delayed[i - 1]);
      if position == 0 {
        if con {
          calls := calls[i := Some(-1)];
          position := -1;
          posLow := Some(d.bars[i].low);
          barsSinceEntry := 0;
        }
      } else if position == -1 {
        var stopped;
        stopped, posLow, barsSinceEntry := ShortBar(p, d, i, posLow, barsSinceEntry);
        if stopped {
          calls := calls[i := Some(1)];
          position := 0;
          posLow := None;
        }
      }
      i := i + 1;
    }
    if position == -1 {
      calls := calls[n - 1 := Some(1)];
    }
    assert calls == ForceClose(LoopColumn(p, d), position == -1, 1);
    return Produced(calls);
  }

  // ===================== properties =====================

  lemma StepTransition(p: Params, d: Data, st: State, i: int)
    requires Valid(d) && 1 <= i < |d.bars| && st.position in {0, -1} && st.barsSinceEntry >= 0
    requires st.position == -1 ==> st.posLow.Some?
    ensures var (next, code) := Step(p, d, st, i);
      next.position in {0, -1} && next.barsSinceEntry >= 0 && (next.position == -1 ==> next.posLow.Some?) &&
      code == Transition(st.position, next.position, -1, -1, 1)
  {
  }

  /** Flat or short, and while short `PosLow` is a price. */
  lemma {:induction false} StateShape(p: Params, d: Data, i: int)
    requires Valid(d) && 0 <= i <= |d.bars|
    ensures StateBefore(p, d, i).position in {0, -1}
    ensures StateBefore(p, d, i).barsSinceEntry >= 0
    ensures StateBefore(p, d, i).position == -1 ==> StateBefore(p, d, i).posLow.Some?
    decreases i
  {
    if i > Start(p) && i > 1 {
      StateShape(p, d, i - 1);
      StepTransition(p, d, StateBefore(p, d, i - 1), i - 1);
    }
  }

  /**
   * A short entry is written exactly when flat, the low reaches the lower
   * channel of bar i-ChanDelay-1 and the previous low was above that of bar
   * i-ChanDelay-2; no volume is needed.
   */
  lemma EntryExactly(p: Params, d: Data, i: int)
    requires Valid(d) && Start(p) <= i < |d.bars| && 1 <= i
    ensures CallAt(p, d, i) == Some(-1) <==>
      StateBefore(p, d, i).position == 0 && i - p.chanDelay - 2 >= 0 &&
      Le(Some(d.bars[i].low), d.lowerChan[i - p.chanDelay - 1]) &&
      Gt(Some(d.bars[i - 1].low), d.lowerChan[i - p.chanDelay - 2])
  {
    StateShape(p, d, i);
  }

  /** A cover (code 1) is written exactly when short and the high reaches the stop line built from the updated PosLow. */
  lemma ExitExactly(p: Params, d: Data, i: int)
    requires Valid(d) && Start(p) <= i < |d.bars| && 1 <= i
    ensures var st := StateBefore(p, d, i);
      CallAt(p, d, i) == Some(1) <==>
      st.position == -1 && Ge(Some(d.bars[i].high), Stopline(p, d, LowerPosLow(st.posLow, d.bars[i].low), i))
  {
    StateShape(p, d, i);
  }

  /** The stop line is never above the delayed channel high plus a tick, nor above the trailing ATR stop. */
  lemma StoplineBelowBoth(p: Params, d: Data, posLow: Option<real>, i: int)
    requires Valid(d) && 0 <= i < |d.bars|
    requires Stopline(p, d, posLow, i).Some?
    requires Add(posLow, Shift(d.atrVal, 1)[i]).Some? && Add(Shift(d.upperChan, p.chanDelay + 1)[i], Some(MinPoint)).Some?
    ensures Stopline(p, d, posLow, i).value <= Add(posLow, Shift(d.atrVal, 1)[i]).value
    ensures Stopline(p, d, posLow, i).value <= Add(Shift(d.upperChan, p.chanDelay + 1)[i], Some(MinPoint)).value
  {
  }

  /** A bar that writes an entry leaves the book short with `PosLow` at its low and the count reset. */
  lemma StepEntry(p: Params, d: Data, st: State, i: int)
    requires Valid(d) && 1 <= i < |d.bars|
    ensures Step(p, d, st, i).1 == Some(-1) ==> Step(p, d, st, i).0 == State(-1, Some(d.bars[i].low), 0)
  {
  }

  /** While short and not stopped out, a bar lowers `PosLow` to its low if lower and counts one more bar. */
  lemma StepWhileShort(p: Params, d: Data, st: State, i: int)
    requires Valid(d) && 1 <= i < |d.bars| && st.position == -1 && st.barsSinceEntry >= 0
    ensures Step(p, d, st, i).1 == None ==>
      Step(p, d, st, i).0 == State(-1, LowerPosLow(st.posLow, d.bars[i].low), st.barsSinceEntry + 1)
  {
  }

  /** After an entry on bar `e` and no event since, PosLow is the lowest low of bars e .. i-1. */
  lemma {:induction false} PosLowIsRunningMinimum(p: Params, d: Data, e: int, i: int)
    requires Valid(d) && Start(p) <= e < i <= |d.bars| && 1 <= e
    requires CallAt(p, d, e) == Some(-1)
    requires forall j :: e < j < i ==> CallAt(p, d, j) == None
    ensures StateBefore(p, d, i).position == -1
    ensures StateBefore(p, d, i).posLow == Some(Min(Lows(d.bars)[e .. i]))
    ensures StateBefore(p, d, i).barsSinceEntry == i - 1 - e
    decreases i
  {
    var st := StateBefore(p, d, i - 1);
    assert StateBefore(p, d, i) == Step(p, d, st, i - 1).0;
    if i - 1 > e {
      PosLowIsRunningMinimum(p, d, e, i - 1);
      assert Step(p, d, st, i - 1).1 == CallAt(p, d, i - 1) == None;
      StepWhileShort(p, d, st, i - 1);
      var m, low := Min(Lows(d.bars)[e .. i - 1]), d.bars[i - 1].low;
      assert LowerPosLow(Some(m), low) == Some(MinReal(m, low));
      MinOfExtendedSlice(Lows(d.bars), e, i);
      assert Lows(d.bars)[i - 1] == low;
    } else {
      assert Step(p, d, st, e).1 == CallAt(p, d, e);
      StepEntry(p, d, st, e);
      assert Lows(d.bars)[e .. i] == [d.bars[e].low];
    }
  }

  function Positions(p: Params, d: Data): (r: seq<int>)
    requires Valid(d)
    ensures |r| == |d.bars| + 1
  {
    seq(|d.bars| + 1, j requires 0 <= j <= |d.bars| => StateBefore(p, d, j).position)
  }

  lemma PositionsAt(p: Params, d: Data, j: int)
    requires Valid(d) && 0 <= j <= |d.bars|
    ensures Positions(p, d)[j] == StateBefore(p, d, j).position
  {
  }

  lemma CallIsTransition(p: Params, d: Data, j: int)
    requires Valid(d) && 0 <= j < |d.bars|
    ensures (if j >= Start(p) && j >= 1 then CallAt(p, d, j) else None) ==
            Transition(StateBefore(p, d, j).position, StateBefore(p, d, j + 1).position, -1, -1, 1)
  {
    StateShape(p, d, j);
    if j >= Start(p) && j >= 1 {
      var st := StateBefore(p, d, j);
      StepTransition(p, d, st, j);
      assert StateBefore(p, d, j + 1) == Step(p, d, st, j).0;
    }
  }

  lemma PositionAt(p: Params, d: Data, j: int)
    requires Valid(d) && 0 <= j <= |d.bars|
    ensures Positions(p, d)[j] == 0 || Positions(p, d)[j] == -1
  {
    StateShape(p, d, j);
  }

  lemma ColumnAt(p: Params, d: Data, j: int)
    requires Valid(d) && 0 <= j < |d.bars|
    ensures LoopColumn(p, d)[j] == Transition(Positions(p, d)[j], Positions(p, d)[j + 1], -1, -1, 1)
  {
    CallIsTransition(p, d, j);
    PositionsAt(p, d, j);
    PositionsAt(p, d, j + 1);
  }

  lemma LoopFollowsPositions(p: Params, d: Data)
    requires Valid(d)
    ensures Follows(LoopColumn(p, d), Positions(p, d), -1, -1, 1)
  {
    forall j | 0 <= j <= |d.bars| ensures Positions(p, d)[j] == 0 || Positions(p, d)[j] == -1 {
      PositionAt(p, d, j);
    }
    forall j | 0 <= j < |d.bars| ensures LoopColumn(p, d)[j] == Transition(Positions(p, d)[j], Positions(p, d)[j + 1], -1, -1, 1) {
      ColumnAt(p, d, j);
    }
  }

  /** Entries are -1 and covers 1; unless an entry lands on the last bar they alternate and the column ends flat. */
  lemma NetFlat(p: Params, d: Data)
    requires Valid(d) && |d.bars| >= Start(p)
    requires |d.bars| > 0 ==> LoopColumn(p, d)[|d.bars| - 1] != Some(-1)
    ensures Signals(p, d).Produced?
    ensures Alternating(Codes(Signals(p, d).value), -1, 1) && |Codes(Signals(p, d).value)| % 2 == 0
  {
    LoopFollowsPositions(p, d);
    ForcedCloseBalances(LoopColumn(p, d), Positions(p, d), -1, -1, 1);
  }

  lemma LastBarEntryOverwritten(p: Params, d: Data)
    requires Valid(d) && Start(p) < |d.bars| && |d.bars| >= 2
    requires CallAt(p, d, |d.bars| - 1) == Some(-1)
    ensures Signals(p, d).Produced? && Signals(p, d).value[|d.bars| - 1] == Some(1)
    ensures Codes(Signals(p, d).value) == Codes(LoopColumn(p, d)[..|d.bars| - 1]) + [1]
  {
    var n := |d.bars|;
    var st := StateBefore(p, d, n - 1);
    assert StateBefore(p, d, n).position == -1 by {
      StateShape(p, d, n - 1);
      StepTransition(p, d, st, n - 1);
      assert StateBefore(p, d, n) == Step(p, d, st, n - 1).0;
    }
    CodesOfLastWrite(LoopColumn(p, d), 1);
  }
}
