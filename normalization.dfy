/** Max-normalization: every score column is divided by that column's maximum
    over the current batch (`scored_df / scored_df.max()`). */
module Normalization {
  import opened Scoring

  /** A score table: one row per laptop, seven scores per row, each in 1..4. */
  predicate IsScoreTable(t: seq<seq<int>>)
  {
    forall i :: 0 <= i < |t| ==> |t[i]| == |Criteria| && forall j :: 0 <= j < |t[i]| ==> 1 <= t[i][j] <= 4
  }

  /** `df.apply(convert_to_score, axis=1)`: the score table of a batch. */
  function ScoreTable(data: seq<Laptop>): (t: seq<seq<int>>)
    ensures |t| == |data| && IsScoreTable(t)
  {
    seq(|data|, i requires 0 <= i < |data| => ConvertToScore(data[i]))
  }

  /** `scored_df.max()` for column j. */
  function ColumnMax(t: seq<seq<int>>, j: nat): int
    requires |t| > 0 && forall i :: 0 <= i < |t| ==> j < |t[i]|
  {
    if |t| == 1 then t[0][j]
    else
      var rest := ColumnMax(t[1..], j);
      if t[0][j] >= rest then t[0][j] else rest
  }

  /** The column maximum is attained by some row and bounds every row. */
  lemma {:induction false} ColumnMaxIsMax(t: seq<seq<int>>, j: nat)
    requires |t| > 0 && forall i :: 0 <= i < |t| ==> j < |t[i]|
    ensures exists i :: 0 <= i < |t| && t[i][j] == ColumnMax(t, j)
    ensures forall i :: 0 <= i < |t| ==> t[i][j] <= ColumnMax(t, j)
  {
    if |t| > 1 {
      ColumnMaxIsMax(t[1..], j);
      var k :| 0 <= k < |t[1..]| && t[1..][k][j] == ColumnMax(t[1..], j);
      assert t[k + 1][j] == ColumnMax(t[1..], j);
      if t[0][j] < ColumnMax(t[1..], j) {
        assert t[k + 1][j] == ColumnMax(t, j);
      } else {
        assert t[0][j] == ColumnMax(t, j);
      }
      forall i | 1 <= i < |t|
        ensures t[i][j] <= ColumnMax(t, j)
      {
        assert t[i] == t[1..][i - 1];
      }
    } else {
      assert t[0][j] == ColumnMax(t, j);
    }
  }

  /** On a score table every column maximum lies in 1..4, so no division by zero occurs. */
  lemma ColumnMaxRange(t: seq<seq<int>>, j: nat)
    requires |t| > 0 && IsScoreTable(t) && j < |Criteria|
    ensures 1 <= ColumnMax(t, j) <= 4
  {
    ColumnMaxIsMax(t, j);
    var i :| 0 <= i < |t| && t[i][j] == ColumnMax(t, j);
  }

  /** The normalized table. */
  function Normalize(t: seq<seq<int>>): (n: seq<seq<real>>)
    requires |t| > 0 && IsScoreTable(t)
    ensures |n| == |t| && forall i :: 0 <= i < |n| ==> |n[i]| == |Criteria|
  {
    seq(|t|, i requires 0 <= i < |t| =>
      seq(|Criteria|, j requires 0 <= j < |Criteria| =>
        ColumnMaxRange(t, j);
        t[i][j] as real / ColumnMax(t, j) as real))
  }

  /** Every normalized value lies in [1/4, 1] (so in (0, 1]), and it equals 1 exactly
      for the rows that attain the column's maximum. */
  lemma NormalizedBounds(t: seq<seq<int>>, i: nat, j: nat)
    requires |t| > 0 && IsScoreTable(t) && i < |t| && j < |Criteria|
    ensures 0.25 <= Normalize(t)[i][j] <= 1.0
    ensures Normalize(t)[i][j] == 1.0 <==> t[i][j] == ColumnMax(t, j)
  {
    ColumnMaxIsMax(t, j);
    ColumnMaxRange(t, j);
    ScoreQuotient(t[i][j], ColumnMax(t, j));
    assert Normalize(t)[i][j] == t[i][j] as real / ColumnMax(t, j) as real;
  }

  /** A score in 1..m divided by a maximum m of at most 4 lies in [1/4, 1], and it
      is 1 exactly when the score is the maximum. */
  lemma ScoreQuotient(a: int, m: int)
    requires 1 <= a <= m <= 4
    ensures 0.25 <= a as real / m as real <= 1.0
    ensures a as real / m as real == 1.0 <==> a == m
  {
    var v := a as real / m as real;
    if m == 1 {
      assert v == a as real / 1.0;
    } else if m == 2 {
      assert v == a as real / 2.0;
    } else if m == 3 {
      assert v == a as real / 3.0;
    } else {
      assert v == a as real / 4.0;
    }
  }

  /** In every column some row normalizes to exactly 1. */
  lemma ColumnReachesOne(t: seq<seq<int>>, j: nat)
    requires |t| > 0 && IsScoreTable(t) && j < |Criteria|
    ensures exists i :: 0 <= i < |t| && Normalize(t)[i][j] == 1.0
  {
    ColumnMaxIsMax(t, j);
    var i :| 0 <= i < |t| && t[i][j] == ColumnMax(t, j);
    NormalizedBounds(t, i, j);
  }

  /** Dividing a smaller numerator by a larger denominator gives a smaller quotient. */
  lemma QuotientMonotone(a: real, b: real, c: real, d: real)
    requires 0.0 <= a <= b && 0.0 < d <= c
    ensures a / c <= b / d
  {
    var x, y := a / c, b / d;
    assert x * c == a && y * d == b;
    assert x * c <= y * c by {
      assert y * c >= y * d;
    }
  }

  /** Lowering one row's score in a column, all else in that column unchanged,
      never raises that row's normalized value there: the column maximum can
      only drop when the row was itself the maximum, whose value was already 1. */
  lemma LowerScoreNormalizesLower(t: seq<seq<int>>, u: seq<seq<int>>, i: nat, j: nat)
    requires |t| == |u| > 0 && IsScoreTable(t) && IsScoreTable(u)
    requires i < |t| && j < |Criteria|
    requires forall k :: 0 <= k < |t| && k != i ==> u[k][j] == t[k][j]
    requires u[i][j] <= t[i][j]
    ensures Normalize(u)[i][j] <= Normalize(t)[i][j]
  {
    NormalizedBounds(t, i, j);
    NormalizedBounds(u, i, j);
    ColumnMaxIsMax(t, j);
    ColumnMaxIsMax(u, j);
    if t[i][j] != ColumnMax(t, j) {
      var k :| 0 <= k < |t| && t[k][j] == ColumnMax(t, j);
      assert k != i && u[k][j] == t[k][j];
      ColumnMaxRange(t, j);
      ColumnMaxRange(u, j);
      QuotientMonotone(u[i][j] as real, t[i][j] as real, ColumnMax(u, j) as real, ColumnMax(t, j) as real);
    }
  }

  /** The column maximum depends only on which rows the table holds, not on their
      position: two tables whose rows are drawn from each other have the same maximum. */
  lemma ColumnMaxSameRows(t: seq<seq<int>>, u: seq<seq<int>>, j: nat)
    requires |t| > 0 && |u| > 0
    requires forall i :: 0 <= i < |t| ==> j < |t[i]|
    requires forall i :: 0 <= i < |u| ==> j < |u[i]|
    requires forall i :: 0 <= i < |t| ==> t[i] in u
    requires forall i :: 0 <= i < |u| ==> u[i] in t
    ensures ColumnMax(t, j) == ColumnMax(u, j)
  {
    ColumnMaxIsMax(t, j);
    ColumnMaxIsMax(u, j);
    var k :| 0 <= k < |t| && t[k][j] == ColumnMax(t, j);
    var l :| 0 <= l < |u| && u[l][j] == ColumnMax(u, j);
    var k' :| 0 <= k' < |u| && u[k'] == t[k];
    var l' :| 0 <= l' < |t| && t[l'] == u[l];
    assert t[k][j] <= ColumnMax(u, j) by { assert u[k'][j] <= ColumnMax(u, j); }
    assert u[l][j] <= ColumnMax(t, j) by { assert t[l'][j] <= ColumnMax(t, j); }
  }

  /** Equal rows of two tables holding the same rows normalize to equal rows. */
  lemma NormalizeSameRows(t: seq<seq<int>>, u: seq<seq<int>>, i: nat, k: nat)
    requires |t| > 0 && |u| > 0 && IsScoreTable(t) && IsScoreTable(u)
    requires forall r :: 0 <= r < |t| ==> t[r] in u
    requires forall r :: 0 <= r < |u| ==> u[r] in t
    requires i < |t| && k < |u| && t[i] == u[k]
    ensures Normalize(t)[i] == Normalize(u)[k]
  {
    forall j | 0 <= j < |Criteria|
      ensures Normalize(t)[i][j] == Normalize(u)[k][j]
    {
      ColumnMaxSameRows(t, u, j);
    }
  }

  /** Tables that agree on a column have the same normalized column. */
  lemma SameColumnSameNormalized(t: seq<seq<int>>, u: seq<seq<int>>, i: nat, j: nat)
    requires |t| == |u| > 0 && IsScoreTable(t) && IsScoreTable(u)
    requires i < |t| && j < |Criteria|
    requires forall k :: 0 <= k < |t| ==> u[k][j] == t[k][j]
    ensures Normalize(u)[i][j] == Normalize(t)[i][j]
  {
    ColumnMaxIsMax(t, j);
    ColumnMaxIsMax(u, j);
    var k :| 0 <= k < |t| && t[k][j] == ColumnMax(t, j);
    var l :| 0 <= l < |u| && u[l][j] == ColumnMax(u, j);
    assert ColumnMax(t, j) == ColumnMax(u, j) by {
      assert u[k][j] <= ColumnMax(u, j);
      assert t[l][j] <= ColumnMax(t, j);
    }
  }
}
