/*
 * Reference_Deviation_System_S: RDV, the RMALen-bar sum of the closes'
 * deviations from their moving average as a percentage of the sum of the
 * absolute deviations; a short entry when the previous bar's RDV is below
 * ETShort, covered when it turns positive, both only on bars with volume.
 * Codes: -1 entry, 0 exit, NaN elsewhere.
 */
module ReferenceDeviationS {
  import opened Wrappers
  import opened Common
  import opened Events

  datatype Params = Params(etShort: real, rmaLen: nat)

  const Defaults := Params(-5.0, 15)

  /** `abs()` of a column. */
  function AbsColumn(col: Column): (r: Column)
    ensures |r| == |col|
    ensures forall k :: 0 <= k < |col| ==> r[k] == if col[k].Some? then Some(if col[k].value < 0.0 then -col[k].value else col[k].value) else None
  {
    seq(|col|, k requires 0 <= k < |col| =>
      if col[k].Some? then Some(if col[k].value < 0.0 then -col[k].value else col[k].value) else None)
  }

  /** A sum is bounded in absolute value by the sum of the absolute values, and both are NaN together. */
  lemma {:induction false} SumWithinAbsSum(col: Column, lo: int, hi: int)
    requires 0 <= lo <= hi <= |col|
    ensures ColumnSum(col, lo, hi).Some? <==> ColumnSum(AbsColumn(col), lo, hi).Some?
    ensures ColumnSum(col, lo, hi).Some? ==>
      -ColumnSum(AbsColumn(col), lo, hi).value <= ColumnSum(col, lo, hi).value <= ColumnSum(AbsColumn(col), lo, hi).value
    decreases hi - lo
  {
    if lo < hi {
      SumWithinAbsSum(col, lo, hi - 1);
    }
  }

  /** `DRD`: the close less the moving average `RMA`. */
  function DRD(bars: seq<Bar>, rma: Column): (r: Column)
    requires |rma| == |bars|
    ensures |r| == |bars|
    ensures forall i :: 0 <= i < |bars| ==> r[i] == Sub(Some(bars[i].close), rma[i])
  {
    seq(|bars|, i requires 0 <= i < |bars| => Sub(Some(bars[i].close), rma[i]))
  }

  /** `RDV`: 100·NDV/TDV where TDV > 0, and 0 elsewhere, including where TDV is NaN. */
  function RDV(ndv: Column, tdv: Column): (r: seq<real>)
    requires |ndv| == |tdv|
    ensures |r| == |tdv|
  {
    seq(|tdv|, i requires 0 <= i < |tdv| =>
      if Gt(tdv[i], Some(0.0)) && ndv[i].Some? then 100.0 * ndv[i].value / tdv[i].value else 0.0)
  }

  datatype Indicators = Indicators(drd: Column, ndv: Column, tdv: Column, rdv: seq<real>)

  function CalculateIndicators(p: Params, bars: seq<Bar>, rma: Column): (ind: Indicators)
    requires p.rmaLen >= 1 && |rma| == |bars|
    ensures |ind.rdv| == |bars|
    ensures ind.ndv == RollingSum(DRD(bars, rma), p.rmaLen) && ind.tdv == RollingSum(AbsColumn(DRD(bars, rma)), p.rmaLen)
  {
    var drd := DRD(bars, rma);
    var ndv := RollingSum(drd, p.rmaLen);
    var tdv := RollingSum(AbsColumn(drd), p.rmaLen);
    Indicators(drd, ndv, tdv, RDV(ndv, tdv))
  }

  lemma RatioBounded(n: real, t: real)
    requires t > 0.0 && -t <= n <= t
    ensures -100.0 <= 100.0 * n / t <= 100.0
  {
    assert n / t <= 1.0 && n / t >= -1.0;
  }

  /** RDV lies in [-100, 100]; it is 0 until the RMALen-bar window of DRD is free of NaN. */
  lemma RDVBounded(p: Params, bars: seq<Bar>, rma: Column, i: int)
    requires p.rmaLen >= 1 && |rma| == |bars| && 0 <= i < |bars|
    ensures -100.0 <= CalculateIndicators(p, bars, rma).rdv[i] <= 100.0
    ensures i < p.rmaLen - 1 ==> CalculateIndicators(p, bars, rma).rdv[i] == 0.0
  {
    var ind := CalculateIndicators(p, bars, rma);
    if i >= p.rmaLen - 1 {
      SumWithinAbsSum(ind.drd, i - p.rmaLen + 1, i + 1);
      if Gt(ind.tdv[i], Some(0.0)) && ind.ndv[i].Some? {
        RatioBounded(ind.ndv[i].value, ind.tdv[i].value);
      }
    }
  }

  // ===================== signal loop =====================

  datatype Data = Data(bars: seq<Bar>, rdv: seq<real>)

  predicate Valid(d: Data)
  {
    |d.rdv| == |d.bars|
  }

  /** The loop carries only the position. */
  function Step(p: Params, d: Data, position: int, i: int): (int, Option<int>)
    requires Valid(d) && 1 <= i < |d.bars|
  {
    if position == 0 && d.rdv[i - 1] < p.etShort && d.bars[i].vol > 0.0 then (-1, Some(-1))
    else if position == -1 && d.rdv[i - 1] > 0.0 && d.bars[i].vol > 0.0 then (0, Some(0))
    else (position, None)
  }

  function PositionBefore(p: Params, d: Data, i: int): int
    requires Valid(d) && 0 <= i <= |d.bars|
  {
    if i <= 1 then 0 else Step(p, d, PositionBefore(p, d, i - 1), i - 1).0
  }

  function CallAt(p: Params, d: Data, i: int): Option<int>
    requires Valid(d) && 1 <= i < |d.bars|
  {
    Step(p, d, PositionBefore(p, d, i), i).1
  }

  function LoopColumn(p: Params, d: Data): (r: seq<Option<int>>)
    requires Valid(d)
    ensures |r| == |d.bars|
  {
    seq(|d.bars|, j requires 0 <= j < |d.bars| => if j >= 1 then CallAt(p, d, j) else None)
  }

  function Signals(p: Params, d: Data): Outcome<seq<Option<int>>>
    requires Valid(d)
  {
    if |d.bars| < p.rmaLen then Raised("数据长度不足")
    else Produced(ForceClose(LoopColumn(p, d), PositionBefore(p, d, |d.bars|) == -1, 0))
  }

  method GenerateSignals(p: Params, d: Data) returns (out: Outcome<seq<Option<int>>>)
    requires Valid(d)
    ensures out == Signals(p, d)
  {
    var n := |d.bars|;
    if n < p.rmaLen {
      return Raised("数据长度不足");
    }
    var calls: seq<Option<int>> := seq(n, _ => None);
    var position := 0;
    var i := 1;
    while i < n
      invariant 1 <= i <= n || n == 0
      invariant n > 0 ==> position == PositionBefore(p, d, i)
      invariant n == 0 ==> position == 0
      invariant |calls| == n
      invariant forall j :: 0 <= j < i && j < n ==> calls[j] == if j >= 1 then CallAt(p, d, j) else None
      invariant forall j :: i <= j < n ==> calls[j] == None
    {
      if position == 0 && d.rdv[i - 1] < p.etShort && d.bars[i].vol > 0.0 {
        calls := calls[i := Some(-1)];
        position := -1;
      } else if position == -1 && d.rdv[i - 1] > 0.0 && d.bars[i].vol > 0.0 {
        calls := calls[i := Some(0)];
        position := 0;
      }
      i := i + 1;
    }
    if position == -1 {
      calls := calls[n - 1 := Some(0)];
    }
    assert calls == ForceClose(LoopColumn(p, d), PositionBefore(p, d, n) == -1, 0);
    return Produced(calls);
  }

  // ===================== properties =====================

  lemma {:induction false} PositionShape(p: Params, d: Data, i: int)
    requires Valid(d) && 0 <= i <= |d.bars|
    ensures PositionBefore(p, d, i) in {0, -1}
    decreases i
  {
    if i > 1 {
      PositionShape(p, d, i - 1);
    }
  }

  /** A short entry is written exactly when flat, the previous RDV is below ETShort and the bar has volume. */
  lemma EntryExactly(p: Params, d: Data, i: int)
    requires Valid(d) && 1 <= i < |d.bars|
    ensures CallAt(p, d, i) == Some(-1) <==>
      PositionBefore(p, d, i) == 0 && d.rdv[i - 1] < p.etShort && d.bars[i].vol > 0.0
  {
    PositionShape(p, d, i);
  }

  /** A cover is written exactly when short, the previous RDV is positive and the bar has volume. */
  lemma ExitExactly(p: Params, d: Data, i: int)
    requires Valid(d) && 1 <= i < |d.bars|
    ensures CallAt(p, d, i) == Some(0) <==>
      PositionBefore(p, d, i) == -1 && d.rdv[i - 1] > 0.0 && d.bars[i].vol > 0.0
  {
    PositionShape(p, d, i);
  }

  /** With ETShort <= 0 (the default is -5) entries read a negative RDV and covers a positive one. */
  lemma ThresholdsApart(p: Params, d: Data, i: int)
    requires Valid(d) && 1 <= i < |d.bars| && p.etShort <= 0.0
    ensures CallAt(p, d, i) == Some(-1) ==> d.rdv[i - 1] < 0.0
    ensures CallAt(p, d, i) == Some(0) ==> d.rdv[i - 1] > 0.0
  {
    EntryExactly(p, d, i);
    ExitExactly(p, d, i);
  }

  function Positions(p: Params, d: Data): (r: seq<int>)
    requires Valid(d)
    ensures |r| == |d.bars| + 1
  {
    seq(|d.bars| + 1, j requires 0 <= j <= |d.bars| => PositionBefore(p, d, j))
  }

  lemma PositionsAt(p: Params, d: Data, j: int)
    requires Valid(d) && 0 <= j <= |d.bars|
    ensures Positions(p, d)[j] == PositionBefore(p, d, j)
  {
  }

  lemma CallIsTransition(p: Params, d: Data, j: int)
    requires Valid(d) && 0 <= j < |d.bars|
    ensures (if j >= 1 then CallAt(p, d, j) else None) ==
            Transition(PositionBefore(p, d, j), PositionBefore(p, d, j + 1), -1, -1, 0)
  {
    PositionShape(p, d, j);
  }

  lemma PositionAt(p: Params, d: Data, j: int)
    requires Valid(d) && 0 <= j <= |d.bars|
    ensures Positions(p, d)[j] == 0 || Positions(p, d)[j] == -1
  {
    PositionShape(p, d, j);
  }

  lemma ColumnAt(p: Params, d: Data, j: int)
    requires Valid(d) && 0 <= j < |d.bars|
    ensures LoopColumn(p, d)[j] == Transition(Positions(p, d)[j], Positions(p, d)[j + 1], -1, -1, 0)
  {
    CallIsTransition(p, d, j);
    PositionsAt(p, d, j);
    PositionsAt(p, d, j + 1);
  }

  lemma LoopFollowsPositions(p: Params, d: Data)
    requires Valid(d)
    ensures Follows(LoopColumn(p, d), Positions(p, d), -1, -1, 0)
  {
    forall j | 0 <= j <= |d.bars| ensures Positions(p, d)[j] == 0 || Positions(p, d)[j] == -1 {
      PositionAt(p, d, j);
    }
    forall j | 0 <= j < |d.bars| ensures LoopColumn(p, d)[j] == Transition(Positions(p, d)[j], Positions(p, d)[j + 1], -1, -1, 0) {
      ColumnAt(p, d, j);
    }
  }

  lemma SignalsOfLongEnough(p: Params, d: Data)
    requires Valid(d) && |d.bars| >= p.rmaLen
    ensures Signals(p, d) == Produced(ForceClose(LoopColumn(p, d), Positions(p, d)[|d.bars|] == -1, 0))
  {
    PositionsAt(p, d, |d.bars|);
  }

  /** Entries and covers alternate and the column ends flat, unless an entry lands on the last bar. */
  lemma NetFlat(p: Params, d: Data)
    requires Valid(d) && |d.bars| >= p.rmaLen
    requires |d.bars| > 0 ==> LoopColumn(p, d)[|d.bars| - 1] != Some(-1)
    ensures Signals(p, d).Produced?
    ensures Alternating(Codes(Signals(p, d).value), -1, 0) && |Codes(Signals(p, d).value)| % 2 == 0
  {
    var col, pos := LoopColumn(p, d), Positions(p, d);
    var out := ForceClose(col, pos[|col|] == -1, 0);
    assert Alternating(Codes(out), -1, 0) && |Codes(out)| % 2 == 0 by {
      LoopFollowsPositions(p, d);
      ForcedCloseBalances(col, pos, -1, -1, 0);
    }
    SignalsOfLongEnough(p, d);
  }

  /** An entry on the last bar is overwritten by the forced cover. */
  lemma LastBarEntryOverwritten(p: Params, d: Data)
    requires Valid(d) && p.rmaLen <= |d.bars| && |d.bars| >= 2
    requires CallAt(p, d, |d.bars| - 1) == Some(-1)
    ensures Signals(p, d).Produced? && Signals(p, d).value[|d.bars| - 1] == Some(0)
    ensures Codes(Signals(p, d).value) == Codes(LoopColumn(p, d)[..|d.bars| - 1]) + [0]
  {
    var n := |d.bars|;
    assert PositionBefore(p, d, n) == -1 by {
      PositionShape(p, d, n - 1);
      assert PositionBefore(p, d, n) == Step(p, d, PositionBefore(p, d, n - 1), n - 1).0;
    }
    CodesOfLastWrite(LoopColumn(p, d), 0);
  }
}
