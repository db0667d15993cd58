/** The weighted aggregator: every normalized column is multiplied by its
    criterion's constant weight and every row is summed into its total score
    (`Total Skor`). */
module Aggregation {
  import opened Scoring
  import opened Normalization

  /** The `weights` dictionary. */
  function Weight(c: Criterion): (w: real)
    ensures 0.0 < w < 1.0
  {
    match c
    case Harga => 0.30
    case Performa => 0.20
    case RAM => 0.15
    case GPU => 0.15
    case Penyimpanan => 0.10
    case Baterai => 0.05
    case Portabilitas => 0.05
  }

  /** The iteration order of the `weights` dictionary: every criterion once. */
  const WeightOrder: seq<Criterion> := [Harga, Performa, RAM, GPU, Penyimpanan, Baterai, Portabilitas]

  /** Position of a criterion in the iteration order of the `weights` dictionary. */
  function Pos(c: Criterion): (k: nat)
    ensures k < |WeightOrder| && WeightOrder[k] == c
    ensures forall l :: 0 <= l < |WeightOrder| && WeightOrder[l] == c ==> l == k
  {
    match c
    case Harga => 0
    case Performa => 1
    case RAM => 2
    case GPU => 3
    case Penyimpanan => 4
    case Baterai => 5
    case Portabilitas => 6
  }

  /** `row.sum()`: the sum of a row, taken left to right. */
  function Sum(xs: seq<real>): real
  {
    if xs == [] then 0.0 else xs[0] + Sum(xs[1..])
  }

  /** The weights in column order of the score table. */
  function ColumnWeights(): (ws: seq<real>)
    ensures |ws| == |Criteria|
  {
    seq(|Criteria|, j requires 0 <= j < |Criteria| => Weight(Criteria[j]))
  }

  /** One normalized row after the weighting loop: each value times its column's weight. */
  function WeightRow(n: seq<real>): (r: seq<real>)
    requires |n| == |Criteria|
    ensures |r| == |Criteria|
  {
    seq(|Criteria|, j requires 0 <= j < |Criteria| => n[j] * Weight(Criteria[j]))
  }

  /** The `Total Skor` column of a batch, from its score table. */
  function TotalScores(t: seq<seq<int>>): (totals: seq<real>)
    requires |t| > 0 && IsScoreTable(t)
    ensures |totals| == |t|
  {
    var n := Normalize(t);
    seq(|t|, i requires 0 <= i < |t| => Sum(WeightRow(n[i])))
  }

  /** The iteration order of the weights visits every column exactly once. */
  lemma WeightOrderIsPermutation()
    ensures |WeightOrder| == |Criteria|
    ensures forall k, l :: 0 <= k < l < |WeightOrder| ==> WeightOrder[k] != WeightOrder[l]
    ensures forall c: Criterion :: c in WeightOrder
  {
    forall c: Criterion
      ensures c in WeightOrder
    {
      match c
      case Harga => assert WeightOrder[0] == c;
      case Performa => assert WeightOrder[1] == c;
      case RAM => assert WeightOrder[2] == c;
      case GPU => assert WeightOrder[3] == c;
      case Penyimpanan => assert WeightOrder[4] == c;
      case Baterai => assert WeightOrder[5] == c;
      case Portabilitas => assert WeightOrder[6] == c;
    }
  }

  /** The seven weights add up to 1. */
  lemma WeightsSumToOne()
    ensures Sum(ColumnWeights()) == 1.0
  {
    var ws := ColumnWeights();
    assert ws == [0.30, 0.15, 0.20, 0.10, 0.15, 0.05, 0.05];
    assert ws[1..] == [0.15, 0.20, 0.10, 0.15, 0.05, 0.05];
    assert ws[2..] == [0.20, 0.10, 0.15, 0.05, 0.05];
    assert ws[3..] == [0.10, 0.15, 0.05, 0.05];
    assert ws[4..] == [0.15, 0.05, 0.05];
    assert ws[5..] == [0.05, 0.05];
    assert ws[6..] == [0.05];
    assert ws[7..] == [];
  }

  /** Sums respect a pointwise order. */
  lemma {:induction false} SumMonotone(xs: seq<real>, ys: seq<real>)
    requires |xs| == |ys| && forall j :: 0 <= j < |xs| ==> xs[j] <= ys[j]
    ensures Sum(xs) <= Sum(ys)
  {
    if xs != [] {
      SumMonotone(xs[1..], ys[1..]);
    }
  }

  /** Scaling every element scales the sum. */
  lemma {:induction false} SumScale(xs: seq<real>, ys: seq<real>, c: real)
    requires |xs| == |ys| && forall j :: 0 <= j < |xs| ==> ys[j] == c * xs[j]
    ensures Sum(ys) == c * Sum(xs)
  {
    if xs != [] {
      SumScale(xs[1..], ys[1..], c);
    }
  }

  /** Multiplying by a non-negative weight keeps bounds. */
  lemma ScaleBounds(w: real, v: real, lo: real, hi: real)
    requires 0.0 <= w && lo <= v <= hi
    ensures w * lo <= w * v <= w * hi
  {
    assert w * (v - lo) >= 0.0;
    assert w * (hi - v) >= 0.0;
  }

  /** Each total is the weighted sum of the row's normalized scores, written out. */
  lemma TotalClosedForm(t: seq<seq<int>>, i: nat)
    requires |t| > 0 && IsScoreTable(t) && i < |t|
    ensures var n := Normalize(t)[i];
      TotalScores(t)[i] == 0.30 * n[0] + 0.15 * n[1] + 0.20 * n[2] + 0.10 * n[3]
                         + 0.15 * n[4] + 0.05 * n[5] + 0.05 * n[6]
  {
    SumOfSeven(WeightRow(Normalize(t)[i]));
  }

  /** A sum of seven values, written out. */
  lemma SumOfSeven(r: seq<real>)
    requires |r| == 7
    ensures Sum(r) == r[0] + r[1] + r[2] + r[3] + r[4] + r[5] + r[6]
  {
    assert Sum(r[6..]) == r[6] by { assert r[6..][1..] == []; }
    assert Sum(r[5..]) == r[5] + Sum(r[6..]) by { assert r[5..][1..] == r[6..]; }
    assert Sum(r[4..]) == r[4] + Sum(r[5..]) by { assert r[4..][1..] == r[5..]; }
    assert Sum(r[3..]) == r[3] + Sum(r[4..]) by { assert r[3..][1..] == r[4..]; }
    assert Sum(r[2..]) == r[2] + Sum(r[3..]) by { assert r[2..][1..] == r[3..]; }
    assert Sum(r[1..]) == r[1] + Sum(r[2..]) by { assert r[1..][1..] == r[2..]; }
  }

  /** Equal rows of two tables holding the same rows get equal totals. */
  lemma TotalScoresSameRows(t: seq<seq<int>>, u: seq<seq<int>>, i: nat, k: nat)
    requires |t| > 0 && |u| > 0 && IsScoreTable(t) && IsScoreTable(u)
    requires forall r :: 0 <= r < |t| ==> t[r] in u
    requires forall r :: 0 <= r < |u| ==> u[r] in t
    requires i < |t| && k < |u| && t[i] == u[k]
    ensures TotalScores(t)[i] == TotalScores(u)[k]
  {
    NormalizeSameRows(t, u, i, k);
  }

  /** Since the weights add up to 1 and every normalized score lies in [1/4, 1],
      every total lies in [0.25, 1.0]. */
  lemma TotalBounds(t: seq<seq<int>>, i: nat)
    requires |t| > 0 && IsScoreTable(t) && i < |t|
    ensures 0.25 <= TotalScores(t)[i] <= 1.0
  {
    var n := Normalize(t)[i];
    forall j | 0 <= j < |Criteria|
      ensures 0.25 <= n[j] <= 1.0
    {
      NormalizedBounds(t, i, j);
    }
    WeightedSumBounds(n);
  }

  /** A weighted row whose values lie in [1/4, 1] sums to a value in [1/4, 1]. */
  lemma WeightedSumBounds(n: seq<real>)
    requires |n| == |Criteria| && forall j :: 0 <= j < |n| ==> 0.25 <= n[j] <= 1.0
    ensures 0.25 <= Sum(WeightRow(n)) <= 1.0
  {
    var ws := ColumnWeights();
    var row := WeightRow(n);
    var lower := seq(|ws|, j requires 0 <= j < |ws| => 0.25 * ws[j]);
    forall j | 0 <= j < |ws|
      ensures lower[j] <= row[j] <= ws[j]
    {
      ScaleBounds(ws[j], n[j], 0.25, 1.0);
    }
    SumMonotone(lower, row);
    SumMonotone(row, ws);
    SumScale(ws, lower, 0.25);
    WeightsSumToOne();
  }
}
