/*
 * Traffic_Jam_S: a short-only range-market system. The indicator pass builds
 * the DMI/ADX columns with TradeBlazor's Wilder recurrence, counts up-closes
 * over a rolling window and places a protective stop above the previous high;
 * the signal pass is a flat/short state machine with a proactive (bar-count)
 * and a protective (price) exit and a forced close on the last bar.
 */
module TrafficJamS {
  import opened Wrappers
  import opened Common
  import opened Events

  datatype Params = Params(
    dmiN: nat, dmiM: nat, adxLevel: real, adxLowThanBefore: nat, consecBars: nat,
    atrLength: nat, protectStopAtrMulti: real, proactiveStopBars: int, lots: real)

  const Defaults := Params(14, 6, 25.0, 3, 3, 10, 0.5, 10, 1.0)

  // ===================== indicators: the DMI / ADX recurrence =====================

  /** Wilder's smoothing factor `1 / N`. */
  function Sf(n: nat): (r: real)
    requires n >= 1
    ensures 0.0 < r <= 1.0
  {
    1.0 / (n as real)
  }

  /**
   * The directional movement credited to one side: the side's move when it
   * beats the other side's move and is positive, otherwise 0.
   */
  function DirectionalMove(move: real, opposite: real): (r: real)
    ensures r >= 0.0
    ensures r > 0.0 <==> move > opposite && move > 0.0
    ensures r > 0.0 ==> r == move
  {
    if move > opposite && move > 0.0 then move else 0.0
  }

  /** `plus_dm` (when `plus`) or `minus_dm` of bar `i` against bar `i - 1`. */
  function Dm(bars: seq<Bar>, i: int, plus: bool): real
    requires 1 <= i < |bars|
  {
    var upper := bars[i].high - bars[i - 1].high;
    var lower := bars[i - 1].low - bars[i].low;
    if plus then DirectionalMove(upper, lower) else DirectionalMove(lower, upper)
  }

  /** On no bar are both the plus and the minus movement positive. */
  lemma DmOneSided(bars: seq<Bar>, i: int)
    requires 1 <= i < |bars|
    ensures Dm(bars, i, true) >= 0.0 && Dm(bars, i, false) >= 0.0
    ensures !(Dm(bars, i, true) > 0.0 && Dm(bars, i, false) > 0.0)
  {
  }

  /** Sum of the movements of bars `i, i - 1, ..., i - j + 1` (the seed loop after `j` rounds). */
  function SeedDm(bars: seq<Bar>, i: int, j: nat, plus: bool): real
    requires j <= i < |bars|
  {
    if j == 0 then 0.0 else SeedDm(bars, i, j - 1, plus) + Dm(bars, i - (j - 1), plus)
  }

  /** Sum of the true ranges of bars `i, ..., i - j + 1`; NaN once a NaN is added. */
  function SeedTr(tr: Column, i: int, j: nat): Option<real>
    requires j <= i + 1 && i < |tr|
  {
    if j == 0 then Some(0.0) else Add(SeedTr(tr, i, j - 1), tr[i - (j - 1)])
  }

  /** `avg_plus_dm` / `avg_minus_dm` at bar `i >= N`: the seed average, then Wilder smoothing. */
  function AvgDm(bars: seq<Bar>, n: nat, i: int, plus: bool): real
    requires 1 <= n <= i < |bars|
    decreases i
  {
    if i == n then SeedDm(bars, n, n, plus) / (n as real)
    else Wilder(AvgDm(bars, n, i - 1, plus), Dm(bars, i, plus), Sf(n))
  }

  /** `Volty` at bar `i >= N`: the average true range seed, then Wilder smoothing. */
  function Volty(tr: Column, n: nat, i: int): Option<real>
    requires 1 <= n <= i < |tr|
    decreases i
  {
    if i == n then Mul(SeedTr(tr, n, n), Some(1.0 / (n as real)))
    else Add(Volty(tr, n, i - 1), Mul(Some(Sf(n)), Sub(tr[i], Volty(tr, n, i - 1))))
  }

  /** `DMI_plus` / `DMI_minus`: 100 times the movement average over `Volty`, or 0 when `Volty` is not positive. */
  function DmiSide(bars: seq<Bar>, tr: Column, n: nat, i: int, plus: bool): real
    requires 1 <= n <= i < |bars| == |tr|
  {
    DirectionalIndex(AvgDm(bars, n, i, plus), Volty(tr, n, i))
  }

  function DirectionalIndex(avg: real, volty: Option<real>): real
  {
    if Gt(volty, Some(0.0)) then 100.0 * avg / volty.value else 0.0
  }

  /** The `DMI` column (DX): 100·|DMI+ − DMI−| / (DMI+ + DMI−), or 0 when the sum is not positive. */
  function Dx(bars: seq<Bar>, tr: Column, n: nat, i: int): real
    requires 1 <= n <= i < |bars| == |tr|
  {
    DxOf(DmiSide(bars, tr, n, i, true), DmiSide(bars, tr, n, i, false))
  }

  function DxOf(p: real, m: real): real
  {
    if p + m > 0.0 then 100.0 * Abs(p - m) / (p + m) else 0.0
  }


  /**
   * `ADX` at bar `i >= N`. At bar N the source divides the sum of the DMI
   * column up to N, in which only bar N is defined, by N + 1; later bars use
   * Wilder smoothing.
   */
  function Adx(bars: seq<Bar>, tr: Column, n: nat, i: int): real
    requires 1 <= n <= i < |bars| == |tr|
    decreases i
  {
    if i == n then Dx(bars, tr, n, n) / ((n + 1) as real)
    else Wilder(Adx(bars, tr, n, i - 1), Dx(bars, tr, n, i), Sf(n))
  }

  /** The ADX column as it stands once bar `upto` has been written: NaN outside `N..upto`. */
  function AdxSoFar(bars: seq<Bar>, tr: Column, n: nat, upto: int): (r: Column)
    requires 1 <= n && |bars| == |tr|
    ensures |r| == |bars|
  {
    seq(|bars|, k requires 0 <= k < |bars| => if n <= k <= upto then Some(Adx(bars, tr, n, k)) else None)
  }

  /** `ADXR` at bar `i >= N`: the mean of ADX now and ADX `M` positions back, read from the column being built. */
  function Adxr(bars: seq<Bar>, tr: Column, n: nat, m: nat, i: int): Option<real>
    requires 1 <= n <= i < |bars| == |tr|
  {
    var back := if i == n then AdxSoFar(bars, tr, n, i)[i - 1] else ILoc(AdxSoFar(bars, tr, n, i), i - m);
    Mul(Add(Some(Adx(bars, tr, n, i)), back), Some(0.5))
  }

  /** Sum of a column with NaN skipped, as pandas `Series.sum()` does. */
  function SumSkipNaN(col: Column): real
  {
    if col == [] then 0.0
    else SumSkipNaN(col[..|col| - 1]) + (if col[|col| - 1].Some? then col[|col| - 1].value else 0.0)
  }

  lemma {:induction false} SumSkipNaNOfLastOnly(col: Column)
    requires |col| > 0 && col[|col| - 1].Some?
    requires forall k :: 0 <= k < |col| - 1 ==> col[k] == None
    ensures SumSkipNaN(col) == col[|col| - 1].value
  {
    NaNsSumToZero(col[..|col| - 1]);
  }

  lemma {:induction false} NaNsSumToZero(col: Column)
    requires forall k :: 0 <= k < |col| ==> col[k] == None
    ensures SumSkipNaN(col) == 0.0
  {
    if col != [] {
      NaNsSumToZero(col[..|col| - 1]);
    }
  }

  /** The DMI/ADX block of columns `calculate_indicators` adds. */
  datatype DmiColumns = DmiColumns(
    avgPlusDm: Column, avgMinusDm: Column, volty: Column, dmiPlus: Column,
    dmiMinus: Column, dmi: Column, adx: Column, adxr: Column)

  /** The columns as they stand once bar `upto` has been written: the recurrence on bars `N .. upto`, NaN elsewhere. */
  function DmiColumnsThrough(bars: seq<Bar>, tr: Column, n: nat, m: nat, upto: int): DmiColumns
    requires 1 <= n && |bars| == |tr|
  {
    var len := |bars|;
    DmiColumns(
      seq(len, k requires 0 <= k < len => if n <= k <= upto then Some(AvgDm(bars, n, k, true)) else None),
      seq(len, k requires 0 <= k < len => if n <= k <= upto then Some(AvgDm(bars, n, k, false)) else None),
      seq(len, k requires 0 <= k < len => if n <= k <= upto then Volty(tr, n, k) else None),
      seq(len, k requires 0 <= k < len => if n <= k <= upto then Some(DmiSide(bars, tr, n, k, true)) else None),
      seq(len, k requires 0 <= k < len => if n <= k <= upto then Some(DmiSide(bars, tr, n, k, false)) else None),
      seq(len, k requires 0 <= k < len => if n <= k <= upto then Some(Dx(bars, tr, n, k)) else None),
      AdxSoFar(bars, tr, n, upto),
      seq(len, k requires 0 <= k < len => if n <= k <= upto then Adxr(bars, tr, n, m, k) else None))
  }

  /** Writing bar `i`'s row into the columns through bar `i - 1` gives the columns through bar `i`. */
  lemma DmiColumnsStep(bars: seq<Bar>, tr: Column, n: nat, m: nat, i: int)
    requires 1 <= n <= i < |bars| == |tr|
    ensures var c := DmiColumnsThrough(bars, tr, n, m, i - 1);
      DmiColumnsThrough(bars, tr, n, m, i) == DmiColumns(
        c.avgPlusDm[i := Some(AvgDm(bars, n, i, true))], c.avgMinusDm[i := Some(AvgDm(bars, n, i, false))],
        c.volty[i := Volty(tr, n, i)], c.dmiPlus[i := Some(DmiSide(bars, tr, n, i, true))],
        c.dmiMinus[i := Some(DmiSide(bars, tr, n, i, false))], c.dmi[i := Some(Dx(bars, tr, n, i))],
        c.adx[i := Some(Adx(bars, tr, n, i))], c.adxr[i := Adxr(bars, tr, n, m, i)])
  {
  }

  /** The seed loop at bar N: sums of the movements and true ranges of bars `N, N - 1, ..., 1`. */
  method SeedSums(bars: seq<Bar>, tr: Column, n: nat) returns (sumPlus: real, sumMinus: real, sumTr: Option<real>)
    requires 1 <= n < |bars| == |tr|
    ensures sumPlus == SeedDm(bars, n, n, true) && sumMinus == SeedDm(bars, n, n, false)
    ensures sumTr == SeedTr(tr, n, n)
  {
    sumPlus, sumMinus, sumTr := 0.0, 0.0, Some(0.0);
    var i, j := n, 0;
    while j < n
      invariant 0 <= j <= n
      invariant sumPlus == SeedDm(bars, i, j, true) && sumMinus == SeedDm(bars, i, j, false)
      invariant sumTr == SeedTr(tr, i, j)
    {
      var upper := bars[i - j].high - bars[i - j - 1].high;
      var lower := bars[i - j - 1].low - bars[i - j].low;
      var plusDm := if upper > lower && upper > 0.0 then upper else 0.0;
      var minusDm := if lower > upper && lower > 0.0 then lower else 0.0;
      sumPlus := sumPlus + plusDm;
      sumMinus := sumMinus + minusDm;
      sumTr := Add(sumTr, tr[i - j]);
      j := j + 1;
    }
  }

  /**
   * The body of the DMI loop for bar `i` up to the DX value: the seed at bar N
   * or a Wilder step from the previous row, then DMI+, DMI− and DX.
   */
  method DmiRow(bars: seq<Bar>, tr: Column, n: nat, i: int, prevPlus: real, prevMinus: real, prevVolty: Option<real>)
    returns (avgPlus: real, avgMinus: real, volty: Option<real>, dmiPlus: real, dmiMinus: real, dx: real)
    requires 1 <= n <= i < |bars| == |tr|
    requires i > n ==> prevPlus == AvgDm(bars, n, i - 1, true) && prevMinus == AvgDm(bars, n, i - 1, false)
    requires i > n ==> prevVolty == Volty(tr, n, i - 1)
    ensures avgPlus == AvgDm(bars, n, i, true) && avgMinus == AvgDm(bars, n, i, false)
    ensures volty == Volty(tr, n, i)
    ensures dmiPlus == DmiSide(bars, tr, n, i, true) && dmiMinus == DmiSide(bars, tr, n, i, false)
    ensures dx == Dx(bars, tr, n, i)
  {
    var sf := 1.0 / (n as real);
    if i == n {
      var sumPlus, sumMinus, sumTr := SeedSums(bars, tr, n);
      avgPlus, avgMinus := sumPlus / (n as real), sumMinus / (n as real);
      volty := Mul(sumTr, Some(1.0 / (n as real)));
    } else {
      var upper := bars[i].high - bars[i - 1].high;
      var lower := bars[i - 1].low - bars[i].low;
      var plusDm := if upper > lower && upper > 0.0 then upper else 0.0;
      var minusDm := if lower > upper && lower > 0.0 then lower else 0.0;
      assert plusDm == Dm(bars, i, true) && minusDm == Dm(bars, i, false);
      avgPlus := Wilder(prevPlus, plusDm, sf);
      avgMinus := Wilder(prevMinus, minusDm, sf);
      volty := Add(prevVolty, Mul(Some(sf), Sub(tr[i], prevVolty)));
    }
    dmiPlus, dmiMinus := DirectionalIndex(avgPlus, volty), DirectionalIndex(avgMinus, volty);
    dx := DxOf(dmiPlus, dmiMinus);
  }

  /** The source's DMI loop over bars `N .. len - 1`; DX and ADX come out within [0, 100]. */
  method ComputeDmi(bars: seq<Bar>, tr: Column, n: nat, m: nat) returns (c: DmiColumns)
    requires 1 <= n && |tr| == |bars|
    ensures c == DmiColumnsThrough(bars, tr, n, m, |bars| - 1)
    ensures forall k :: n <= k < |bars| ==> c.dmi[k].Some? && 0.0 <= c.dmi[k].value <= 100.0
    ensures forall k :: n <= k < |bars| ==> c.adx[k].Some? && 0.0 <= c.adx[k].value <= 100.0
  {
    var len := |bars|;
    var nan: Column := seq(len, _ => None);
    var avgPlus, avgMinus, volty, dmiPlus, dmiMinus, dmi, adx, adxr := nan, nan, nan, nan, nan, nan, nan, nan;
    var i := n;
    assert DmiColumns(avgPlus, avgMinus, volty, dmiPlus, dmiMinus, dmi, adx, adxr) == DmiColumnsThrough(bars, tr, n, m, n - 1);
    while i < len
      invariant n <= i || len <= n
      invariant DmiColumns(avgPlus, avgMinus, volty, dmiPlus, dmiMinus, dmi, adx, adxr) == DmiColumnsThrough(bars, tr, n, m, i - 1)
    {
      var prevPlus, prevMinus, prevVolty := 0.0, 0.0, None;
      if i > n {
        prevPlus, prevMinus, prevVolty := avgPlus[i - 1].value, avgMinus[i - 1].value, volty[i - 1];
      }
      var newPlus, newMinus, newVolty, p, q, dx := DmiRow(bars, tr, n, i, prevPlus, prevMinus, prevVolty);
      DmiColumnsStep(bars, tr, n, m, i);
      avgPlus, avgMinus, volty := avgPlus[i := Some(newPlus)], avgMinus[i := Some(newMinus)], volty[i := newVolty];
      dmiPlus, dmiMinus := dmiPlus[i := Some(p)], dmiMinus[i := Some(q)];
      dmi := dmi[i := Some(dx)];
      var newAdx, newAdxr := AdxRow(bars, tr, n, m, i, dmi, adx);
      adx, adxr := newAdx, adxr[i := newAdxr];
      i := i + 1;
    }
    c := DmiColumns(avgPlus, avgMinus, volty, dmiPlus, dmiMinus, dmi, adx, adxr);
    if len <= n {
      assert DmiColumnsThrough(bars, tr, n, m, i - 1) == DmiColumnsThrough(bars, tr, n, m, len - 1);
    }
    DmiColumnsBounded(bars, tr, n, m);
  }

  /**
   * The DMI part of the indicator pass: `sf = 1.0 / n` raises
   * ZeroDivisionError when DMI_N is 0, before any column is written;
   * otherwise the DMI loop runs.
   */
  method DmiPass(bars: seq<Bar>, tr: Column, n: nat, m: nat) returns (out: Outcome<DmiColumns>)
    requires |tr| == |bars|
    ensures out.Raised? <==> n == 0
    ensures n >= 1 ==> out == Produced(DmiColumnsThrough(bars, tr, n, m, |bars| - 1))
    ensures out.Produced? ==> forall k :: n <= k < |bars| ==>
      out.value.adx[k].Some? && 0.0 <= out.value.adx[k].value <= 100.0
  {
    if n == 0 {
      return Raised("float division by zero");
    }
    var c := ComputeDmi(bars, tr, n, m);
    out := Produced(c);
  }

  /** Once every bar is written, the DX and ADX columns are defined from bar N on and lie within [0, 100]. */
  lemma DmiColumnsBounded(bars: seq<Bar>, tr: Column, n: nat, m: nat)
    requires 1 <= n && |tr| == |bars|
    ensures var c := DmiColumnsThrough(bars, tr, n, m, |bars| - 1);
      (forall k :: n <= k < |bars| ==> c.dmi[k].Some? && 0.0 <= c.dmi[k].value <= 100.0) &&
      (forall k :: n <= k < |bars| ==> c.adx[k].Some? && 0.0 <= c.adx[k].value <= 100.0)
  {
    var c := DmiColumnsThrough(bars, tr, n, m, |bars| - 1);
    forall k | n <= k < |bars|
      ensures c.dmi[k] == Some(Dx(bars, tr, n, k)) && 0.0 <= Dx(bars, tr, n, k) <= 100.0
      ensures c.adx[k] == Some(Adx(bars, tr, n, k)) && 0.0 <= Adx(bars, tr, n, k) <= 100.0
    {
      DxBounded(bars, tr, n, k);
      AdxBounded(bars, tr, n, k);
    }
  }

  /**
   * The ADX part of the DMI loop body for bar `i`: at bar N the NaN-skipping
   * sum of the DMI column so far over N + 1, later a Wilder step; then ADXR
   * from the column just written.
   */
  method AdxRow(bars: seq<Bar>, tr: Column, n: nat, m: nat, i: int, dmi: Column, adx: Column)
    returns (newAdx: Column, adxr: Option<real>)
    requires 1 <= n <= i < |bars| == |tr|
    requires dmi == DmiColumnsThrough(bars, tr, n, m, i).dmi
    requires adx == AdxSoFar(bars, tr, n, i - 1)
    ensures newAdx == AdxSoFar(bars, tr, n, i)
    ensures adxr == Adxr(bars, tr, n, m, i)
  {
    var sf := 1.0 / (n as real);
    if i <= n {
      SumSkipNaNOfLastOnly(dmi[..i + 1]);
      newAdx := adx[i := Some(SumSkipNaN(dmi[..i + 1]) / ((i + 1) as real))];
      adxr := Mul(Add(newAdx[i], newAdx[i - 1]), Some(0.5));
    } else {
      assert sf == Sf(n);
      newAdx := adx[i := Some(Wilder(adx[i - 1].value, dmi[i].value, sf))];
      adxr := Mul(Add(newAdx[i], ILoc(newAdx, i - m)), Some(0.5));
    }
    assert newAdx == AdxSoFar(bars, tr, n, i);
  }

  /** A Wilder step `a + sf·(b − a)` stays between bounds that hold `a` and `b`. */
  lemma SmoothingStaysInRange(a: real, b: real, sf: real, lo: real, hi: real)
    requires 0.0 <= sf <= 1.0 && lo <= a <= hi && lo <= b <= hi
    ensures lo <= Wilder(a, b, sf) <= hi
  {
    var u := 1.0 - sf;
    MulNonNegative(u, a - lo);
    MulNonNegative(sf, b - lo);
    MulNonNegative(u, hi - a);
    MulNonNegative(sf, hi - b);
    assert a + sf * (b - a) - lo == u * (a - lo) + sf * (b - lo);
    assert hi - (a + sf * (b - a)) == u * (hi - a) + sf * (hi - b);
  }

  /** The smoothed movement averages are never negative. */
  lemma {:induction false} AvgDmNonNegative(bars: seq<Bar>, n: nat, i: int, plus: bool)
    requires 1 <= n <= i < |bars|
    ensures AvgDm(bars, n, i, plus) >= 0.0
    decreases i
  {
    if i == n {
      SeedDmNonNegative(bars, n, n, plus);
      QuotientNonNegative(SeedDm(bars, n, n, plus), n as real);
    } else {
      AvgDmNonNegative(bars, n, i - 1, plus);
      var a := AvgDm(bars, n, i - 1, plus);
      var d := Dm(bars, i, plus);
      SmoothingStaysInRange(a, d, Sf(n), 0.0, if a > d then a else d);
      assert AvgDm(bars, n, i, plus) == Wilder(a, d, Sf(n));
    }
  }

  lemma {:induction false} SeedDmNonNegative(bars: seq<Bar>, i: int, j: nat, plus: bool)
    requires j <= i < |bars|
    ensures SeedDm(bars, i, j, plus) >= 0.0
  {
    if j > 0 {
      SeedDmNonNegative(bars, i, j - 1, plus);
    }
  }

  lemma QuotientNonNegative(a: real, b: real)
    requires a >= 0.0 && b > 0.0
    ensures a / b >= 0.0
  {
    assert a / b * b == a;
  }

  lemma ShrinkByDivisor(a: real, b: real)
    requires a >= 0.0 && b >= 1.0
    ensures 0.0 <= a / b <= a
  {
    var q := a / b;
    assert q * b == a;
    if q < 0.0 {
      MulNonNegative(-q, b);
    }
    MulNonNegative(q, b - 1.0);
  }

  /** DX lies in [0, 100], and is 0 when DMI+ + DMI− is 0. */
  lemma DxBounded(bars: seq<Bar>, tr: Column, n: nat, i: int)
    requires 1 <= n <= i < |bars| == |tr|
    ensures 0.0 <= Dx(bars, tr, n, i) <= 100.0
    ensures DmiSide(bars, tr, n, i, true) + DmiSide(bars, tr, n, i, false) == 0.0 ==> Dx(bars, tr, n, i) == 0.0
  {
    DmiSideNonNegative(bars, tr, n, i, true);
    DmiSideNonNegative(bars, tr, n, i, false);
    var p := DmiSide(bars, tr, n, i, true);
    var m := DmiSide(bars, tr, n, i, false);
    if p + m > 0.0 {
      QuotientAtMost(100.0 * Abs(p - m), p + m, 100.0);
    }
  }

  /** A quotient `x / y` with `0 <= x <= c * y` lies in [0, c]. */
  lemma QuotientAtMost(x: real, y: real, c: real)
    requires 0.0 <= x <= c * y && y > 0.0
    ensures 0.0 <= x / y <= c
  {
    var q := x / y;
    assert q * y == x;
    assert (q - c) * y == x - c * y;
    NonPositiveFactor(q - c, y);
    QuotientNonNegative(x, y);
  }

  lemma NonPositiveFactor(z: real, y: real)
    requires z * y <= 0.0 && y > 0.0
    ensures z <= 0.0
  {
  }

  lemma DmiSideNonNegative(bars: seq<Bar>, tr: Column, n: nat, i: int, plus: bool)
    requires 1 <= n <= i < |bars| == |tr|
    ensures DmiSide(bars, tr, n, i, plus) >= 0.0
  {
    AvgDmNonNegative(bars, n, i, plus);
    var v := Volty(tr, n, i);
    if Gt(v, Some(0.0)) {
      var a := AvgDm(bars, n, i, plus);
      assert 100.0 * a / v.value == (100.0 * a) * (1.0 / v.value);
    }
  }

  /** ADX lies in [0, 100] on every bar it is defined. */
  lemma {:induction false} AdxBounded(bars: seq<Bar>, tr: Column, n: nat, i: int)
    requires 1 <= n <= i < |bars| == |tr|
    ensures 0.0 <= Adx(bars, tr, n, i) <= 100.0
    decreases i
  {
    DxBounded(bars, tr, n, i);
    if i == n {
      ShrinkByDivisor(Dx(bars, tr, n, n), (n + 1) as real);
    } else {
      AdxBounded(bars, tr, n, i - 1);
      SmoothingStaysInRange(Adx(bars, tr, n, i - 1), Dx(bars, tr, n, i), Sf(n), 0.0, 100.0);
    }
  }

  // ===================== indicators: up-close counter and protective stop =====================

  /** Bar `k` closed above bar `k - 1` (bar 0 compares against NaN and never counts). */
  predicate UpClose(bars: seq<Bar>, k: int)
    requires 0 <= k < |bars|
  {
    k >= 1 && bars[k].close > bars[k - 1].close
  }

  /** Number of up-closes among bars `lo .. hi - 1`. */
  function UpCount(bars: seq<Bar>, lo: int, hi: int): nat
    requires 0 <= lo <= hi <= |bars|
    decreases hi - lo
  {
    if lo == hi then 0 else UpCount(bars, lo, hi - 1) + (if UpClose(bars, hi - 1) then 1 else 0)
  }

  /** `ConsecBarsCount`: the rolling sum of up-closes over `ConsecBars` bars, NaN before the window fills. */
  function ConsecBarsCount(bars: seq<Bar>, w: nat): (r: Column)
    requires w >= 1
    ensures |r| == |bars|
  {
    seq(|bars|, i requires 0 <= i < |bars| =>
      if i >= w - 1 then Some(UpCount(bars, i - w + 1, i + 1) as real) else None)
  }

  lemma {:induction false} UpCountBounds(bars: seq<Bar>, lo: int, hi: int)
    requires 0 <= lo <= hi <= |bars|
    ensures UpCount(bars, lo, hi) <= hi - lo
    ensures UpCount(bars, lo, hi) == hi - lo <==> forall k :: lo <= k < hi ==> UpClose(bars, k)
    decreases hi - lo
  {
    if lo < hi {
      UpCountBounds(bars, lo, hi - 1);
    }
  }

  /** The counter lies in [0, ConsecBars] and reaches ConsecBars exactly after ConsecBars up-closes in a row. */
  lemma ConsecBarsCountMeaning(bars: seq<Bar>, w: nat, i: int)
    requires w >= 1 && w - 1 <= i < |bars|
    ensures ConsecBarsCount(bars, w)[i].Some?
    ensures 0.0 <= ConsecBarsCount(bars, w)[i].value <= w as real
    ensures ConsecBarsCount(bars, w)[i] == Some(w as real) <==>
            forall k :: i - w + 1 <= k <= i ==> UpClose(bars, k)
  {
    UpCountBounds(bars, i - w + 1, i + 1);
  }

  /** `ProtectStopS`: the previous high plus the multiple of the previous ATR. */
  function ProtectStopS(bars: seq<Bar>, atr: Column, mult: real): (r: Column)
    requires |atr| == |bars|
    ensures |r| == |bars|
  {
    var highPrev := Shift(Defined(Highs(bars)), 1);
    var atrPrev := Shift(atr, 1);
    seq(|bars|, k requires 0 <= k < |bars| => Add(highPrev[k], Mul(Some(mult), atrPrev[k])))
  }

  lemma ProtectStopSAt(bars: seq<Bar>, atr: Column, mult: real, k: int)
    requires |atr| == |bars| && 1 <= k < |bars|
    ensures ProtectStopS(bars, atr, mult)[k] == Add(Some(bars[k - 1].high), Mul(Some(mult), atr[k - 1]))
  {
  }

  // ===================== signals: the flat / short state machine =====================

  /** The frame `generate_signals` reads: bars plus the ADX, ConsecBarsCount and ProtectStopS columns. */
  datatype Data = Data(bars: seq<Bar>, adx: Column, consec: Column, protectStopS: Column)

  predicate Valid(d: Data)
  {
    |d.adx| == |d.bars| && |d.consec| == |d.bars| && |d.protectStopS| == |d.bars|
  }

  datatype State = State(position: int, prevPosition: int, positionBars: int)

  function MinLength(p: Params): nat
  {
    if p.dmiN >= p.atrLength then p.dmiN else p.atrLength
  }

  predicate AdxCondition(p: Params, d: Data, i: int)
  {
    Lt(ILoc(d.adx, i - 1), Some(p.adxLevel)) &&
    Lt(ILoc(d.adx, i - 1), ILoc(d.adx, i - p.adxLowThanBefore - 1))
  }

  predicate ConsecCondition(p: Params, d: Data, i: int)
  {
    ILoc(d.consec, i - 1) == Some(p.consecBars as real)
  }

  predicate EntryCondition(p: Params, d: Data, i: int)
    requires 0 <= i < |d.bars|
  {
    i > p.dmiN && AdxCondition(p, d, i) && ConsecCondition(p, d, i) && d.bars[i].vol > 0.0
  }

  predicate ExitCondition(p: Params, d: Data, i: int, barsHeld: int)
    requires 0 <= i < |d.bars|
  {
    barsHeld >= p.proactiveStopBars || Ge(Some(d.bars[i].high), ILoc(d.protectStopS, i - 1))
  }

  /** One iteration of the signal loop: the new state and the code written on bar `i`, if any. */
  function Step(p: Params, d: Data, st: State, i: int): (State, Option<int>)
    requires Valid(d) && 0 <= i < |d.bars|
  {
    var volume := d.bars[i].vol > 0.0;
    if st.position != -1 && EntryCondition(p, d, i) then
      (State(-1, -1, 0), Some(-1))
    else if st.position == -1 && st.prevPosition == -1 && volume then
      var held := st.positionBars + 1;
      if ExitCondition(p, d, i, held) then (State(0, 0, 0), Some(0))
      else (State(-1, -1, held), None)
    else
      (State(st.position, st.position, st.positionBars), None)
  }

  /** The state when the iteration for bar `i` begins. */
  function StateBefore(p: Params, d: Data, i: int): State
    requires Valid(d) && MinLength(p) <= i <= |d.bars|
    decreases i
  {
    if i == MinLength(p) then State(0, 0, 0)
    else Step(p, d, StateBefore(p, d, i - 1), i - 1).0
  }

  function CallAt(p: Params, d: Data, i: int): Option<int>
    requires Valid(d) && MinLength(p) <= i < |d.bars|
  {
    Step(p, d, StateBefore(p, d, i), i).1
  }

  /** The `call` column the loop leaves, before the forced close. */
  function LoopColumn(p: Params, d: Data): (r: seq<Option<int>>)
    requires Valid(d) && MinLength(p) <= |d.bars|
    ensures |r| == |d.bars|
  {
    seq(|d.bars|, j requires 0 <= j < |d.bars| => if j >= MinLength(p) then CallAt(p, d, j) else None)
  }

  /** What `generate_signals` returns. */
  function Signals(p: Params, d: Data): Outcome<seq<Option<int>>>
    requires Valid(d)
  {
    if |d.bars| < MinLength(p) then EmptyFrame
    else Produced(ForceClose(LoopColumn(p, d), StateBefore(p, d, |d.bars|).position == -1, 0))
  }

  method GenerateSignals(p: Params, d: Data) returns (out: Outcome<seq<Option<int>>>)
    requires Valid(d)
    ensures out == Signals(p, d)
  {
    var n := |d.bars|;
    var minLength := if p.dmiN >= p.atrLength then p.dmiN else p.atrLength;
    if n < minLength {
      return EmptyFrame;
    }
    var calls: seq<Option<int>> := seq(n, _ => None);
    var position, prevPosition, positionBars := 0, 0, 0;
    var i := minLength;
    while i < n
      invariant minLength <= i <= n
      invariant State(position, prevPosition, positionBars) == StateBefore(p, d, i)
      invariant |calls| == n
      invariant forall j :: 0 <= j < n ==> calls[j] == if minLength <= j < i then CallAt(p, d, j) else None
    {
      var adxCondition := Lt(ILoc(d.adx, i - 1), Some(p.adxLevel)) &&
                          Lt(ILoc(d.adx, i - 1), ILoc(d.adx, i - p.adxLowThanBefore - 1));
      var consecCondition := ILoc(d.consec, i - 1) == Some(p.consecBars as real);
      var volumeCondition := d.bars[i].vol > 0.0;
      if position != -1 && i > p.dmiN && adxCondition && consecCondition && volumeCondition {
        calls := calls[i := Some(-1)];
        position := -1;
        positionBars := 0;
      } else if position == -1 && prevPosition == -1 && volumeCondition {
        positionBars := positionBars + 1;
        var proactiveStop := positionBars >= p.proactiveStopBars;
        var protectStop := Ge(Some(d.bars[i].high), ILoc(d.protectStopS, i - 1));
        if proactiveStop || protectStop {
          calls := calls[i := Some(0)];
          position := 0;
          positionBars := 0;
        }
      }
      prevPosition := position;
      i := i + 1;
    }
    if position == -1 {
      calls := calls[n - 1 := Some(0)];
    }
    assert calls == ForceClose(LoopColumn(p, d), position == -1, 0);
    return Produced(calls);
  }

  // ===================== properties of the signal machine =====================

  /** Between bars the position is flat or short, `prev_position` equals it, and a flat book has no bar count. */
  lemma {:induction false} StateShape(p: Params, d: Data, i: int)
    requires Valid(d) && MinLength(p) <= i <= |d.bars|
    ensures StateBefore(p, d, i).position in {0, -1}
    ensures StateBefore(p, d, i).prevPosition == StateBefore(p, d, i).position
    ensures StateBefore(p, d, i).positionBars >= 0
    ensures StateBefore(p, d, i).position == 0 ==> StateBefore(p, d, i).positionBars == 0
    decreases i
  {
    if i > MinLength(p) {
      StateShape(p, d, i - 1);
    }
  }

  /** A short entry is written exactly when the book is flat and every entry condition holds. */
  lemma EntryExactly(p: Params, d: Data, i: int)
    requires Valid(d) && MinLength(p) <= i < |d.bars|
    ensures CallAt(p, d, i) == Some(-1) <==>
      StateBefore(p, d, i).position == 0 && i > p.dmiN && d.bars[i].vol > 0.0 &&
      ILoc(d.consec, i - 1) == Some(p.consecBars as real) &&
      Lt(ILoc(d.adx, i - 1), Some(p.adxLevel)) &&
      Lt(ILoc(d.adx, i - 1), ILoc(d.adx, i - p.adxLowThanBefore - 1))
  {
    StateShape(p, d, i);
  }

  /**
   * An exit is written exactly when the book is short, the bar has volume, and
   * either the held-bar count reaches ProactiveStopBars or the high reaches
   * the previous bar's protective stop; so never on an entry bar or a bar
   * without volume.
   */
  lemma ExitExactly(p: Params, d: Data, i: int)
    requires Valid(d) && MinLength(p) <= i < |d.bars|
    ensures CallAt(p, d, i) == Some(0) <==>
      StateBefore(p, d, i).position == -1 && d.bars[i].vol > 0.0 &&
      (StateBefore(p, d, i).positionBars + 1 >= p.proactiveStopBars ||
       Ge(Some(d.bars[i].high), ILoc(d.protectStopS, i - 1)))
  {
    StateShape(p, d, i);
  }

  /** With the indicator pass's stop column, the protective exit compares the high with the high two bars back plus the ATR multiple. */
  lemma ProtectiveExitLevel(p: Params, d: Data, atr: Column, i: int)
    requires Valid(d) && MinLength(p) <= i < |d.bars| && i >= 2
    requires |atr| == |d.bars| && d.protectStopS == ProtectStopS(d.bars, atr, p.protectStopAtrMulti)
    ensures ILoc(d.protectStopS, i - 1) == Add(Some(d.bars[i - 2].high), Mul(Some(p.protectStopAtrMulti), atr[i - 2]))
  {
    ProtectStopSAt(d.bars, atr, p.protectStopAtrMulti, i - 1);
  }

  /** Number of bars with positive volume among `lo .. hi - 1`. */
  function VolumeBars(bars: seq<Bar>, lo: int, hi: int): nat
    requires 0 <= lo <= hi <= |bars|
    decreases hi - lo
  {
    if lo == hi then 0 else VolumeBars(bars, lo, hi - 1) + (if bars[hi - 1].vol > 0.0 then 1 else 0)
  }

  /** After an entry on bar `e` and no event since, the book is short and `position_bars` counts the positive-volume bars after `e`. */
  lemma {:induction false} PositionBarsCountVolumeBars(p: Params, d: Data, e: int, i: int)
    requires Valid(d) && MinLength(p) <= e < i <= |d.bars|
    requires CallAt(p, d, e) == Some(-1)
    requires forall j :: e < j < i ==> CallAt(p, d, j) == None
    ensures StateBefore(p, d, i).position == -1
    ensures StateBefore(p, d, i).positionBars == VolumeBars(d.bars, e + 1, i)
    decreases i
  {
    StateShape(p, d, i - 1);
    if i - 1 > e {
      assert CallAt(p, d, i - 1) == None;
      PositionBarsCountVolumeBars(p, d, e, i - 1);
    }
  }

  /** The position held when each bar begins, and after the last. */
  function Positions(p: Params, d: Data): (r: seq<int>)
    requires Valid(d) && MinLength(p) <= |d.bars|
    ensures |r| == |d.bars| + 1
  {
    seq(|d.bars| + 1, j requires 0 <= j <= |d.bars| => if j <= MinLength(p) then 0 else StateBefore(p, d, j).position)
  }

  lemma PositionsAt(p: Params, d: Data, j: int)
    requires Valid(d) && MinLength(p) <= j <= |d.bars|
    ensures Positions(p, d)[j] == StateBefore(p, d, j).position
  {
  }

  /** Bar `j` carries exactly the code of the position change across it. */
  lemma CallIsTransition(p: Params, d: Data, j: int)
    requires Valid(d) && MinLength(p) <= j < |d.bars|
    ensures CallAt(p, d, j) == Transition(StateBefore(p, d, j).position, StateBefore(p, d, j + 1).position, -1, -1, 0)
  {
    StateShape(p, d, j);
    assert StateBefore(p, d, j + 1) == Step(p, d, StateBefore(p, d, j), j).0;
  }

  lemma PositionAt(p: Params, d: Data, j: int)
    requires Valid(d) && MinLength(p) <= |d.bars| && 0 <= j <= |d.bars|
    ensures Positions(p, d)[j] == 0 || Positions(p, d)[j] == -1
  {
    if j > MinLength(p) { StateShape(p, d, j); }
  }

  lemma ColumnAt(p: Params, d: Data, j: int)
    requires Valid(d) && MinLength(p) <= |d.bars| && 0 <= j < |d.bars|
    ensures LoopColumn(p, d)[j] == Transition(Positions(p, d)[j], Positions(p, d)[j + 1], -1, -1, 0)
  {
    if j >= MinLength(p) {
      LiveColumnAt(p, d, j);
    }
  }

  lemma LiveColumnAt(p: Params, d: Data, j: int)
    requires Valid(d) && MinLength(p) <= j < |d.bars|
    ensures LoopColumn(p, d)[j] == Transition(Positions(p, d)[j], Positions(p, d)[j + 1], -1, -1, 0)
  {
    CallIsTransition(p, d, j);
    PositionsAt(p, d, j);
    PositionsAt(p, d, j + 1);
  }

  lemma LoopFollowsPositions(p: Params, d: Data)
    requires Valid(d) && MinLength(p) <= |d.bars|
    ensures Follows(LoopColumn(p, d), Positions(p, d), -1, -1, 0)
  {
    forall j | 0 <= j <= |d.bars| ensures Positions(p, d)[j] == 0 || Positions(p, d)[j] == -1 {
      PositionAt(p, d, j);
    }
    forall j | 0 <= j < |d.bars| ensures LoopColumn(p, d)[j] == Transition(Positions(p, d)[j], Positions(p, d)[j + 1], -1, -1, 0) {
      ColumnAt(p, d, j);
    }
  }

  /** Unless an entry lands on the last bar, the returned column alternates entry/exit and ends flat. */
  lemma NetFlat(p: Params, d: Data)
    requires Valid(d) && MinLength(p) <= |d.bars|
    requires |d.bars| > 0 ==> LoopColumn(p, d)[|d.bars| - 1] != Some(-1)
    ensures Signals(p, d).Produced?
    ensures Alternating(Codes(Signals(p, d).value), -1, 0) && |Codes(Signals(p, d).value)| % 2 == 0
  {
    LoopFollowsPositions(p, d);
    PositionsAt(p, d, |d.bars|);
    ForcedCloseBalances(LoopColumn(p, d), Positions(p, d), -1, -1, 0);
  }

  /** An entry on the last bar is overwritten by the forced close: the column ends with an unmatched exit. */
  lemma LastBarEntryOverwritten(p: Params, d: Data)
    requires Valid(d) && MinLength(p) < |d.bars|
    requires CallAt(p, d, |d.bars| - 1) == Some(-1)
    ensures Signals(p, d).Produced? && Signals(p, d).value[|d.bars| - 1] == Some(0)
    ensures Codes(Signals(p, d).value) == Codes(LoopColumn(p, d)[..|d.bars| - 1]) + [0]
  {
    var n := |d.bars|;
    assert StateBefore(p, d, n).position == -1 by {
      CallIsTransition(p, d, n - 1);
    }
    CodesOfLastWrite(LoopColumn(p, d), 0);
  }
}
