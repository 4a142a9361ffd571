/*
 * Shared vocabulary of the strategy models: price bars, indicator columns in
 * which a missing value plays the part of a floating-point NaN, the Python and
 * pandas indexing rules the strategies rely on, and trailing-window statistics.
 */
module Common {
  import opened Wrappers

  /** How a signal generator ends: it returns a frame, returns an empty frame, or raises. */
  datatype Outcome<T> = Produced(value: T) | EmptyFrame | Raised(error: string)

  /** One row of the price frame. */
  datatype Bar = Bar(open: real, high: real, low: real, close: real, vol: real)

  /** A float column: `None` stands for NaN. */
  type Column = seq<Option<real>>

  /** A bar whose high is its largest and whose low is its smallest price. */
  predicate WellFormedBar(b: Bar)
  {
    b.low <= b.open <= b.high && b.low <= b.close <= b.high
  }

  predicate WellFormed(bars: seq<Bar>)
  {
    forall i :: 0 <= i < |bars| ==> WellFormedBar(bars[i])
  }

  // ----- NaN-aware comparisons: every comparison involving NaN is false -----

  predicate Lt(a: Option<real>, b: Option<real>) { a.Some? && b.Some? && a.value < b.value }
  predicate Le(a: Option<real>, b: Option<real>) { a.Some? && b.Some? && a.value <= b.value }
  predicate Gt(a: Option<real>, b: Option<real>) { a.Some? && b.Some? && a.value > b.value }
  predicate Ge(a: Option<real>, b: Option<real>) { a.Some? && b.Some? && a.value >= b.value }

  // ----- NaN-propagating arithmetic -----

  function Add(a: Option<real>, b: Option<real>): Option<real>
  {
    if a.Some? && b.Some? then Some(a.value + b.value) else None
  }

  function Sub(a: Option<real>, b: Option<real>): Option<real>
  {
    if a.Some? && b.Some? then Some(a.value - b.value) else None
  }

  function Mul(a: Option<real>, b: Option<real>): Option<real>
  {
    if a.Some? && b.Some? then Some(a.value * b.value) else None
  }

  /** Python's built-in `min(a, b)`: `b` when `b < a`, otherwise `a`, so `min(NaN, x)` is NaN and `min(x, NaN)` is `x`. */
  function PyMin(a: Option<real>, b: Option<real>): (r: Option<real>)
    ensures r == a || r == b
    ensures a.Some? && b.Some? ==> r.Some? && r.value <= a.value && r.value <= b.value
  {
    if Lt(b, a) then b else a
  }

  /** Python's built-in `max(a, b)`: `b` when `b > a`, otherwise `a`. */
  function PyMax(a: Option<real>, b: Option<real>): (r: Option<real>)
    ensures r == a || r == b
    ensures a.Some? && b.Some? ==> r.Some? && r.value >= a.value && r.value >= b.value
  {
    if Gt(b, a) then b else a
  }

  /** Division of two columns' values; NaN when either is NaN or the divisor is 0. */
  function Div(a: Option<real>, b: Option<real>): Option<real>
  {
    if a.Some? && b.Some? && b.value != 0.0 then Some(a.value / b.value) else None
  }

  /** `Series.clip(lo, hi)` on a value that is not NaN. */
  function Clip(x: real, lo: real, hi: real): (r: real)
    requires lo <= hi
    ensures lo <= r <= hi
    ensures lo <= x <= hi ==> r == x
  {
    if x < lo then lo else if x > hi then hi else x
  }

  function Abs(x: real): real { if x < 0.0 then -x else x }

  /** One step of Wilder smoothing: move `prev` the fraction `sf` of the way to `x`. */
  function Wilder(prev: real, x: real, sf: real): real
  {
    prev + sf * (x - prev)
  }

  function MinReal(a: real, b: real): real { if b < a then b else a }
  function MaxReal(a: real, b: real): real { if b > a then b else a }

  // ----- positional access -----

  /**
   * `iloc[k]` of a column: a negative position counts from the end, as in
   * Python; a position outside the column (which would raise) reads as NaN.
   */
  function ILoc<T>(col: seq<Option<T>>, k: int): Option<T>
  {
    if 0 <= k < |col| then col[k]
    else if -|col| <= k < 0 then col[|col| + k]
    else None
  }

  /** `series.shift(s)`: row `k` holds row `k - s`, the first `s` rows are NaN. */
  function Shift<T>(col: seq<Option<T>>, s: nat): (r: seq<Option<T>>)
    ensures |r| == |col|
    ensures forall k :: 0 <= k < |r| && k >= s ==> r[k] == col[k - s]
    ensures forall k :: 0 <= k < |r| && k < s ==> r[k] == None
  {
    seq(|col|, k requires 0 <= k < |col| => if k >= s then col[k - s] else None)
  }

  /** `series.ffill()` at row `k`: the last non-NaN value at or before `k`, NaN if there is none. */
  function FFillAt<T>(col: seq<Option<T>>, k: int): (r: Option<T>)
    requires 0 <= k < |col|
    ensures col[k].Some? ==> r == col[k]
  {
    if col[k].Some? then col[k] else if k == 0 then None else FFillAt(col, k - 1)
  }

  function FFill<T>(col: seq<Option<T>>): (r: seq<Option<T>>)
    ensures |r| == |col| && forall k :: 0 <= k < |col| ==> r[k] == FFillAt(col, k)
  {
    seq(|col|, k requires 0 <= k < |col| => FFillAt(col, k))
  }

  function Opens(bars: seq<Bar>): (r: seq<real>)
    ensures |r| == |bars| && forall i :: 0 <= i < |bars| ==> r[i] == bars[i].open
  {
    seq(|bars|, i requires 0 <= i < |bars| => bars[i].open)
  }

  function Highs(bars: seq<Bar>): (r: seq<real>)
    ensures |r| == |bars| && forall i :: 0 <= i < |bars| ==> r[i] == bars[i].high
  {
    seq(|bars|, i requires 0 <= i < |bars| => bars[i].high)
  }

  function Lows(bars: seq<Bar>): (r: seq<real>)
    ensures |r| == |bars| && forall i :: 0 <= i < |bars| ==> r[i] == bars[i].low
  {
    seq(|bars|, i requires 0 <= i < |bars| => bars[i].low)
  }

  function Closes(bars: seq<Bar>): (r: seq<real>)
    ensures |r| == |bars| && forall i :: 0 <= i < |bars| ==> r[i] == bars[i].close
  {
    seq(|bars|, i requires 0 <= i < |bars| => bars[i].close)
  }

  /** A column of plain prices, with no NaN in it. */
  function Defined(xs: seq<real>): (r: Column)
    ensures |r| == |xs| && forall i :: 0 <= i < |xs| ==> r[i] == Some(xs[i])
  {
    seq(|xs|, i requires 0 <= i < |xs| => Some(xs[i]))
  }

  // ----- sequence statistics -----

  function Sum(xs: seq<real>): real
  {
    if xs == [] then 0.0 else Sum(xs[..|xs| - 1]) + xs[|xs| - 1]
  }

  function Mean(xs: seq<real>): real
    requires |xs| > 0
  {
    Sum(xs) / (|xs| as real)
  }

  function Max(xs: seq<real>): (m: real)
    requires |xs| > 0
    ensures forall i :: 0 <= i < |xs| ==> xs[i] <= m
    ensures exists i :: 0 <= i < |xs| && xs[i] == m
  {
    if |xs| == 1 then xs[0]
    else
      var m' := Max(xs[..|xs| - 1]);
      assert forall i :: 0 <= i < |xs| - 1 ==> xs[..|xs| - 1][i] == xs[i];
      MaxReal(m', xs[|xs| - 1])
  }

  function Min(xs: seq<real>): (m: real)
    requires |xs| > 0
    ensures forall i :: 0 <= i < |xs| ==> m <= xs[i]
    ensures exists i :: 0 <= i < |xs| && xs[i] == m
  {
    if |xs| == 1 then xs[0]
    else
      var m' := Min(xs[..|xs| - 1]);
      assert forall i :: 0 <= i < |xs| - 1 ==> xs[..|xs| - 1][i] == xs[i];
      MinReal(m', xs[|xs| - 1])
  }

  /** The minimum of a slice grown by one element on the right. */
  lemma MinOfExtendedSlice(xs: seq<real>, lo: int, hi: int)
    requires 0 <= lo && lo + 1 < hi <= |xs|
    ensures Min(xs[lo .. hi]) == MinReal(Min(xs[lo .. hi - 1]), xs[hi - 1])
  {
    var w := xs[lo .. hi];
    assert w[..|w| - 1] == xs[lo .. hi - 1];
  }

  lemma {:induction false} SumNonNegative(xs: seq<real>)
    requires forall i :: 0 <= i < |xs| ==> xs[i] >= 0.0
    ensures Sum(xs) >= 0.0
  {
    if xs != [] {
      SumNonNegative(xs[..|xs| - 1]);
    }
  }

  /** `series.rolling(w)` window ending at row `i`: rows `i - w + 1 .. i`. */
  function Window(xs: seq<real>, i: int, w: nat): (r: seq<real>)
    requires w >= 1 && w - 1 <= i < |xs|
    ensures |r| == w
  {
    xs[i - w + 1 .. i + 1]
  }

  /** `series.rolling(w).mean()` of a column with no NaN. */
  function RollingMean(xs: seq<real>, w: nat): (r: Column)
    requires w >= 1
    ensures |r| == |xs|
  {
    seq(|xs|, i requires 0 <= i < |xs| => if i >= w - 1 then Some(Mean(Window(xs, i, w))) else None)
  }

  /** The sum of a column's rows lo .. hi-1; NaN if any of them is. */
  function ColumnSum(col: Column, lo: int, hi: int): (r: Option<real>)
    requires 0 <= lo <= hi <= |col|
    ensures r.Some? <==> forall k :: lo <= k < hi ==> col[k].Some?
    decreases hi - lo
  {
    if lo == hi then Some(0.0) else Add(ColumnSum(col, lo, hi - 1), col[hi - 1])
  }

  /** `rolling(w).sum()`: NaN for the first w - 1 rows and wherever the window holds a NaN. */
  function RollingSum(col: Column, w: nat): (r: Column)
    requires w >= 1
    ensures |r| == |col|
    ensures forall i :: 0 <= i < |col| ==> r[i] == if i >= w - 1 then ColumnSum(col, i - w + 1, i + 1) else None
  {
    seq(|col|, i requires 0 <= i < |col| => if i >= w - 1 then ColumnSum(col, i - w + 1, i + 1) else None)
  }

  /** `rolling(w).mean()` of a column that may hold NaN: the window's sum over w, NaN wherever the sum is. */
  function RollingMeanOf(col: Column, w: nat): (r: Column)
    requires w >= 1
    ensures |r| == |col|
  {
    seq(|col|, i requires 0 <= i < |col| => Div(RollingSum(col, w)[i], Some(w as real)))
  }

  lemma MulNonNegative(x: real, y: real)
    requires x >= 0.0 && y >= 0.0
    ensures x * y >= 0.0
  {
  }

  /** A column times a constant, row by row (`df[col] * k`); NaN stays NaN. */
  function Scaled(col: Column, k: real): (r: Column)
    ensures |r| == |col|
    ensures forall i :: 0 <= i < |col| ==> r[i] == Mul(col[i], Some(k))
  {
    seq(|col|, i requires 0 <= i < |col| => Mul(col[i], Some(k)))
  }

  // ----- rounding -----

  function Floor(x: real): int { x.Floor }

  /** Python's `round` on a float: to the nearest integer, ties to the even neighbour. */
  function RoundHalfEven(x: real): (r: int)
    ensures (r as real) - 0.5 <= x <= (r as real) + 0.5
    ensures (x == (r as real) - 0.5 || x == (r as real) + 0.5) ==> r % 2 == 0
  {
    var f := x.Floor;
    var d := x - f as real;
    if d < 0.5 then f
    else if d > 0.5 then f + 1
    else if f % 2 == 0 then f
    else f + 1
  }

  // ----- strategy parameters -----

  type ParamMap = map<string, real>

  /**
   * The parameters a strategy ends up with: its defaults, overridden key by
   * key by the caller's map when one is given (`{**defaults, **params}`, or
   * `defaults.update(params)` when `params` is given).
   */
  function MergeParams(defaults: ParamMap, params: Option<ParamMap>): (r: ParamMap)
    ensures r.Keys == defaults.Keys + (if params.Some? then params.value.Keys else {})
    ensures forall k :: k in r ==> r[k] == if params.Some? && k in params.value then params.value[k] else defaults[k]
  {
    if params.Some? then defaults + params.value else defaults
  }

  // ----- frames updated in place -----

  /**
   * A DataFrame that a strategy writes new columns into: float columns and
   * boolean columns by name, all of the frame's length.
   */
  class Frame {
    var length: nat
    var num: map<string, Column>
    var flag: map<string, seq<bool>>

    ghost predicate Valid()
      reads this
    {
      (forall k :: k in num ==> |num[k]| == length) &&
      (forall k :: k in flag ==> |flag[k]| == length)
    }

    constructor (n: nat, columns: map<string, Column>)
      requires forall k :: k in columns ==> |columns[k]| == n
      ensures Valid() && length == n && num == columns && flag == map[]
    {
      length := n;
      num := columns;
      flag := map[];
    }
  }
}
