/**
 * Leaderboard.findAll({ order: [['total_points', 'DESC']] }): the rows in
 * non-increasing order of points. Rows with equal points keep their table
 * order (a stable insertion sort).
 */
module Ranking {
  import opened Models

  predicate SortedDesc(rows: seq<LeaderboardRow>) {
    forall i, j :: 0 <= i < j < |rows| ==> rows[i].totalPoints >= rows[j].totalPoints
  }

  /** Places `row` in front of the first row that does not have strictly more points. */
  function Insert(row: LeaderboardRow, sorted: seq<LeaderboardRow>): (r: seq<LeaderboardRow>)
    requires SortedDesc(sorted)
    ensures SortedDesc(r)
    ensures multiset(r) == multiset(sorted) + multiset{row}
    ensures |r| == |sorted| + 1 && (r[0] == row || (sorted != [] && r[0] == sorted[0]))
  {
    if sorted == [] || sorted[0].totalPoints <= row.totalPoints then
      [row] + sorted
    else
      var rest := Insert(row, sorted[1..]);
      assert sorted == [sorted[0]] + sorted[1..];
      [sorted[0]] + rest
  }

  /** The rows ordered by total points, highest first; a permutation of the input. */
  function SortByPointsDesc(rows: seq<LeaderboardRow>): (r: seq<LeaderboardRow>)
    ensures SortedDesc(r)
    ensures multiset(r) == multiset(rows)
    ensures |r| == |rows|
  {
    if rows == [] then []
    else
      assert rows == [rows[0]] + rows[1..];
      Insert(rows[0], SortByPointsDesc(rows[1..]))
  }
}
