/*
 * The signal column of a one-directional strategy, read as a sequence of
 * trade events: the codes written on successive bars, with NaN rows skipped.
 * A column whose every code is the change of a tracked position alternates
 * entry, exit, entry, ...; the forced close on the last bar then leaves the
 * column net flat unless it overwrites an entry written on that same bar.
 */
module Events {
  import opened Wrappers
  import opened Common

  /**
   * One row of a signal matrix: [signal, quantity, entry_price, exit_price,
   * position], the prices NaN where the row does not set them.
   */
  datatype Row = Row(signal: int, quantity: real, entryPrice: Option<real>, exitPrice: Option<real>, position: int)

  /** The signal column read as codes: the nonzero signals, NaN where the signal is 0. */
  function SignalCodes(rows: seq<Row>): (r: seq<Option<int>>)
    ensures |r| == |rows|
  {
    seq(|rows|, j requires 0 <= j < |rows| => if rows[j].signal != 0 then Some(rows[j].signal) else None)
  }

  lemma SignalCodeAt(rows: seq<Row>, j: int)
    requires 0 <= j < |rows|
    ensures SignalCodes(rows)[j] == if rows[j].signal != 0 then Some(rows[j].signal) else None
  {
  }

  /** The codes written into a signal column, in bar order. */
  function Codes(col: seq<Option<int>>): seq<int>
  {
    if col == [] then []
    else Codes(col[..|col| - 1]) + (if col[|col| - 1].Some? then [col[|col| - 1].value] else [])
  }

  /** The code a bar should carry when the position goes from `before` to `after`. */
  function Transition(before: int, after: int, dir: int, entry: int, exit: int): Option<int>
  {
    if before == 0 && after == dir then Some(entry)
    else if before == dir && after == 0 then Some(exit)
    else None
  }

  predicate Alternating(codes: seq<int>, entry: int, exit: int)
  {
    forall k :: 0 <= k < |codes| ==> codes[k] == if k % 2 == 0 then entry else exit
  }

  /**
   * `pos[i]` is the position held when bar `i` starts (flat before the first
   * bar, and always flat or `dir`), and every bar carries exactly the code of
   * its position change.
   */
  predicate Follows(col: seq<Option<int>>, pos: seq<int>, dir: int, entry: int, exit: int)
  {
    |pos| == |col| + 1 && pos[0] == 0 &&
    (forall i :: 0 <= i < |pos| ==> pos[i] == 0 || pos[i] == dir) &&
    (forall i :: 0 <= i < |col| ==> col[i] == Transition(pos[i], pos[i + 1], dir, entry, exit))
  }

  lemma {:induction false} FollowsPrefix(col: seq<Option<int>>, pos: seq<int>, dir: int, entry: int, exit: int, m: nat)
    requires Follows(col, pos, dir, entry, exit) && m <= |col|
    ensures Follows(col[..m], pos[..m + 1], dir, entry, exit)
  {
    assert forall i :: 0 <= i < m ==> col[..m][i] == col[i];
    assert forall i :: 0 <= i <= m ==> pos[..m + 1][i] == pos[i];
  }

  /** Codes follow position changes: they alternate, and an odd count means a position is still open. */
  lemma {:induction false} FollowsAlternates(col: seq<Option<int>>, pos: seq<int>, dir: int, entry: int, exit: int)
    requires dir != 0 && Follows(col, pos, dir, entry, exit)
    ensures Alternating(Codes(col), entry, exit)
    ensures |Codes(col)| % 2 == (if pos[|col|] == dir then 1 else 0)
  {
    if col != [] {
      var m := |col| - 1;
      FollowsPrefix(col, pos, dir, entry, exit, m);
      FollowsAlternates(col[..m], pos[..m + 1], dir, entry, exit);
      assert pos[..m + 1][m] == pos[m];
      var prev := Codes(col[..m]);
      assert col[m] == Transition(pos[m], pos[m + 1], dir, entry, exit);
      if col[m].Some? {
        assert Codes(col) == prev + [col[m].value];
        assert col[m].value == if |prev| % 2 == 0 then entry else exit;
      }
    }
  }

  /** The forced close: when a position is still open, the last bar's code becomes the exit code. */
  function ForceClose(col: seq<Option<int>>, holding: bool, exit: int): (r: seq<Option<int>>)
    ensures |r| == |col|
  {
    if holding && |col| > 0 then col[|col| - 1 := Some(exit)] else col
  }

  lemma CodesOfLastWrite(col: seq<Option<int>>, c: int)
    requires |col| > 0
    ensures Codes(col[|col| - 1 := Some(c)]) == Codes(col[..|col| - 1]) + [c]
  {
    assert col[|col| - 1 := Some(c)][..|col| - 1] == col[..|col| - 1];
  }

  /**
   * Unless an entry was written on the last bar, the forced close leaves the
   * column balanced: alternating codes, as many exits as entries.
   */
  lemma {:induction false} ForcedCloseBalances(col: seq<Option<int>>, pos: seq<int>, dir: int, entry: int, exit: int)
    requires dir != 0 && Follows(col, pos, dir, entry, exit)
    requires |col| > 0 ==> col[|col| - 1] != Some(entry)
    ensures Alternating(Codes(ForceClose(col, pos[|col|] == dir, exit)), entry, exit)
    ensures |Codes(ForceClose(col, pos[|col|] == dir, exit))| % 2 == 0
  {
    FollowsAlternates(col, pos, dir, entry, exit);
    if pos[|col|] == dir {
      var m := |col| - 1;
      assert col[m] == Transition(pos[m], pos[m + 1], dir, entry, exit);
      assert pos[m] == dir;
      FollowsPrefix(col, pos, dir, entry, exit, m);
      FollowsAlternates(col[..m], pos[..m + 1], dir, entry, exit);
      assert pos[..m + 1][m] == pos[m];
      CodesOfLastWrite(col, exit);
    }
  }

  /**
   * An entry written on the last bar is overwritten by the forced close: the
   * column ends with an exit that follows a balanced history, so exits
   * outnumber entries by one.
   */
  lemma {:induction false} ForcedCloseOverwritesEntry(col: seq<Option<int>>, pos: seq<int>, dir: int, entry: int, exit: int)
    requires dir != 0 && entry != exit && Follows(col, pos, dir, entry, exit)
    requires |col| > 0 && col[|col| - 1] == Some(entry)
    ensures ForceClose(col, pos[|col|] == dir, exit)[|col| - 1] == Some(exit)
    ensures Codes(ForceClose(col, pos[|col|] == dir, exit)) == Codes(col[..|col| - 1]) + [exit]
    ensures Alternating(Codes(col[..|col| - 1]), entry, exit) && |Codes(col[..|col| - 1])| % 2 == 0
  {
    var m := |col| - 1;
    assert col[m] == Transition(pos[m], pos[m + 1], dir, entry, exit);
    assert pos[m] == 0 && pos[m + 1] == dir;
    FollowsPrefix(col, pos, dir, entry, exit, m);
    FollowsAlternates(col[..m], pos[..m + 1], dir, entry, exit);
    assert pos[..m + 1][m] == pos[m];
    CodesOfLastWrite(col, exit);
  }
}
