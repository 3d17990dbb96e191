/** The per-player totals under the score table (`calculateTotals`): column `i` of
    the table summed over every committed round. */
module Totals {

  /** What a round contributes to column `i`: its entry there, or nothing when the
      round has no entry in that column. */
  function Cell(row: seq<int>, i: nat): int
  {
    if i < |row| then row[i] else 0
  }

  /** The sum of column `i` over `rows`, first round first. */
  function ColumnSum(rows: seq<seq<int>>, i: nat): int
  {
    if rows == [] then 0 else Cell(rows[0], i) + ColumnSum(rows[1..], i)
  }

  /** The totals row for a table of `playerCount` columns. */
  function TotalsOf(rows: seq<seq<int>>, playerCount: nat): (totals: seq<int>)
    ensures |totals| == playerCount
  {
    seq(playerCount, i requires 0 <= i < playerCount => ColumnSum(rows, i))
  }

  /** `totals` with one more round added in, column by column. */
  function AddRow(totals: seq<int>, row: seq<int>): (r: seq<int>)
    ensures |r| == |totals|
  {
    seq(|totals|, i requires 0 <= i < |totals| => totals[i] + Cell(row, i))
  }

  lemma {:induction false} ColumnSumAppend(rows: seq<seq<int>>, row: seq<int>, i: nat)
    ensures ColumnSum(rows + [row], i) == ColumnSum(rows, i) + Cell(row, i)
  {
    if rows == [] {
      assert [] + [row] == [row];
    } else {
      assert (rows + [row])[1..] == rows[1..] + [row];
      ColumnSumAppend(rows[1..], row, i);
    }
  }

  /** Before any round is committed every total is 0. */
  lemma NoRoundsAllZero(playerCount: nat)
    ensures forall i :: 0 <= i < playerCount ==> TotalsOf([], playerCount)[i] == 0
  {
  }

  /** Committing a round adds that round to the totals, column by column. */
  lemma TotalsAppend(rows: seq<seq<int>>, row: seq<int>, playerCount: nat)
    ensures TotalsOf(rows + [row], playerCount) == AddRow(TotalsOf(rows, playerCount), row)
  {
    forall i | 0 <= i < playerCount
      ensures TotalsOf(rows + [row], playerCount)[i] == AddRow(TotalsOf(rows, playerCount), row)[i]
    {
      ColumnSumAppend(rows, row, i);
    }
  }

  /** `calculateTotals`: a zero-filled array of one slot per player, into which
      every round is added entry by entry. A round may be shorter than the table,
      but not longer (a longer round would add slots that hold NaN). */
  method CalculateTotals(playerCount: nat, scores: seq<seq<int>>) returns (totals: seq<int>)
    requires forall row :: row in scores ==> |row| <= playerCount
    ensures totals == TotalsOf(scores, playerCount)
  {
    var acc := new int[playerCount](_ => 0);
    var j := 0;
    while j < |scores|
      invariant 0 <= j <= |scores|
      invariant acc[..] == TotalsOf(scores[..j], playerCount)
    {
      var row := scores[j];
      assert row in scores;
      var i := 0;
      while i < |row|
        invariant 0 <= i <= |row| <= playerCount
        invariant forall k :: 0 <= k < i ==> acc[k] == ColumnSum(scores[..j], k) + row[k]
        invariant forall k :: i <= k < playerCount ==> acc[k] == ColumnSum(scores[..j], k)
      {
        acc[i] := acc[i] + row[i];
        i := i + 1;
      }
      assert scores[..j + 1] == scores[..j] + [row];
      TotalsAppend(scores[..j], row, playerCount);
      assert acc[..] == AddRow(TotalsOf(scores[..j], playerCount), row);
      j := j + 1;
    }
    assert scores[..j] == scores;
    totals := acc[..];
  }
}
