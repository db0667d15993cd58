/** The three laptops the table is seeded with, and what the engine makes of them. */
module Fixtures {
  import opened Scoring
  import opened Normalization
  import opened Aggregation
  import opened Ranking
  import opened Engine

  const AsusZenbook := Laptop("Asus Zenbook 14", 15000000, "16GB", "Intel i7 / Ryzen 7", "SSD 512GB",
                              "Integrated", "< 1.5 kg", "> 8 jam", "Asus", "Kerja Kantoran")
  const LenovoLegion := Laptop("Lenovo Legion 5", 22000000, "16GB", "Intel i7 / Ryzen 7", "SSD 512GB",
                               "RTX", "2 – 2.5 kg", "4 – 6 jam", "Lenovo", "Gaming")
  const MacBookAir := Laptop("MacBook Air M2", 18000000, "8GB", "Intel i7 / Ryzen 7", "SSD 256GB",
                             "Integrated", "< 1.5 kg", "> 8 jam", "Apple", "Desain")

  const SeedBatch: seq<Laptop> := [AsusZenbook, LenovoLegion, MacBookAir]

  /** The seeded rows score as follows (columns in score-table order). */
  lemma SeedScores()
    ensures ScoreTable(SeedBatch) == [[2, 2, 3, 3, 1, 4, 4], [1, 2, 3, 3, 3, 2, 2], [2, 1, 3, 2, 1, 4, 4]]
  {
    assert ConvertToScore(AsusZenbook) == [2, 2, 3, 3, 1, 4, 4];
    assert ConvertToScore(LenovoLegion) == [1, 2, 3, 3, 3, 2, 2];
    assert ConvertToScore(MacBookAir) == [2, 1, 3, 2, 1, 4, 4];
  }

  /** Every column maximum of the seeded batch. */
  lemma SeedMaxima()
    ensures var t := ScoreTable(SeedBatch);
      && ColumnMax(t, 0) == 2 && ColumnMax(t, 1) == 2 && ColumnMax(t, 2) == 3 && ColumnMax(t, 3) == 3
      && ColumnMax(t, 4) == 3 && ColumnMax(t, 5) == 4 && ColumnMax(t, 6) == 4
  {
    SeedScores();
    var t := ScoreTable(SeedBatch);
    ColumnMaxOfThree(t, 0);
    ColumnMaxOfThree(t, 1);
    ColumnMaxOfThree(t, 2);
    ColumnMaxOfThree(t, 3);
    ColumnMaxOfThree(t, 4);
    ColumnMaxOfThree(t, 5);
    ColumnMaxOfThree(t, 6);
  }

  /** The column maximum of a three-row table. */
  lemma ColumnMaxOfThree(t: seq<seq<int>>, j: nat)
    requires |t| == 3 && forall i :: 0 <= i < |t| ==> j < |t[i]|
    ensures ColumnMax(t, j) == Max(t[0][j], Max(t[1][j], t[2][j]))
  {
    assert t[1..][1..] == [t[2]];
    assert ColumnMax(t[1..][1..], j) == t[2][j];
    assert ColumnMax(t[1..], j) == Max(t[1][j], t[2][j]);
  }

  function Max(a: int, b: int): int
  {
    if a >= b then a else b
  }

  /** A normalized entry times its column maximum is the entry's score. */
  lemma NormalizedEntry(t: seq<seq<int>>, i: nat, j: nat, a: real, m: real)
    requires |t| > 0 && IsScoreTable(t) && i < |t| && j < |Criteria|
    requires t[i][j] as real == a && ColumnMax(t, j) as real == m
    ensures Normalize(t)[i][j] * m == a
  {
    ColumnMaxRange(t, j);
  }

  /** The arithmetic of the Asus Zenbook 14 row. */
  lemma SeedArithmetic0(n: seq<real>)
    requires |n| == |Criteria|
    requires n[0] * 2.0 == 2.0 && n[1] * 2.0 == 2.0 && n[2] * 3.0 == 3.0 && n[3] * 3.0 == 3.0 && n[4] * 3.0 == 1.0 && n[5] * 4.0 == 4.0 && n[6] * 4.0 == 4.0
    ensures 0.30 * n[0] + 0.15 * n[1] + 0.20 * n[2] + 0.10 * n[3]
         + 0.15 * n[4] + 0.05 * n[5] + 0.05 * n[6] == 0.9
  {
  }

  /** The total score of the Asus Zenbook 14 in the seeded batch. */
  lemma SeedTotal0()
    ensures TotalScores(ScoreTable(SeedBatch))[0] == 0.9
  {
    var t := ScoreTable(SeedBatch);
    SeedScores();
    SeedMaxima();
    NormalizedEntry(t, 0, 0, 2.0, 2.0);
    NormalizedEntry(t, 0, 1, 2.0, 2.0);
    NormalizedEntry(t, 0, 2, 3.0, 3.0);
    NormalizedEntry(t, 0, 3, 3.0, 3.0);
    NormalizedEntry(t, 0, 4, 1.0, 3.0);
    NormalizedEntry(t, 0, 5, 4.0, 4.0);
    NormalizedEntry(t, 0, 6, 4.0, 4.0);
    TotalClosedForm(t, 0);
    SeedArithmetic0(Normalize(t)[0]);
  }

  /** The arithmetic of the Lenovo Legion 5 row. */
  lemma SeedArithmetic1(n: seq<real>)
    requires |n| == |Criteria|
    requires n[0] * 2.0 == 1.0 && n[1] * 2.0 == 2.0 && n[2] * 3.0 == 3.0 && n[3] * 3.0 == 3.0 && n[4] * 3.0 == 3.0 && n[5] * 4.0 == 2.0 && n[6] * 4.0 == 2.0
    ensures 0.30 * n[0] + 0.15 * n[1] + 0.20 * n[2] + 0.10 * n[3]
         + 0.15 * n[4] + 0.05 * n[5] + 0.05 * n[6] == 0.8
  {
  }

  /** The total score of the Lenovo Legion 5 in the seeded batch. */
  lemma SeedTotal1()
    ensures TotalScores(ScoreTable(SeedBatch))[1] == 0.8
  {
    var t := ScoreTable(SeedBatch);
    SeedScores();
    SeedMaxima();
    NormalizedEntry(t, 1, 0, 1.0, 2.0);
    NormalizedEntry(t, 1, 1, 2.0, 2.0);
    NormalizedEntry(t, 1, 2, 3.0, 3.0);
    NormalizedEntry(t, 1, 3, 3.0, 3.0);
    NormalizedEntry(t, 1, 4, 3.0, 3.0);
    NormalizedEntry(t, 1, 5, 2.0, 4.0);
    NormalizedEntry(t, 1, 6, 2.0, 4.0);
    TotalClosedForm(t, 1);
    SeedArithmetic1(Normalize(t)[1]);
  }

  /** The arithmetic of the MacBook Air M2 row. */
  lemma SeedArithmetic2(n: seq<real>)
    requires |n| == |Criteria|
    requires n[0] * 2.0 == 2.0 && n[1] * 2.0 == 1.0 && n[2] * 3.0 == 3.0 && n[3] * 3.0 == 2.0 && n[4] * 3.0 == 1.0 && n[5] * 4.0 == 4.0 && n[6] * 4.0 == 4.0
    ensures 0.30 * n[0] + 0.15 * n[1] + 0.20 * n[2] + 0.10 * n[3]
         + 0.15 * n[4] + 0.05 * n[5] + 0.05 * n[6] == 19.0 / 24.0
  {
  }

  /** The total score of the MacBook Air M2 in the seeded batch. */
  lemma SeedTotal2()
    ensures TotalScores(ScoreTable(SeedBatch))[2] == 19.0 / 24.0
  {
    var t := ScoreTable(SeedBatch);
    SeedScores();
    SeedMaxima();
    NormalizedEntry(t, 2, 0, 2.0, 2.0);
    NormalizedEntry(t, 2, 1, 1.0, 2.0);
    NormalizedEntry(t, 2, 2, 3.0, 3.0);
    NormalizedEntry(t, 2, 3, 2.0, 3.0);
    NormalizedEntry(t, 2, 4, 1.0, 3.0);
    NormalizedEntry(t, 2, 5, 4.0, 4.0);
    NormalizedEntry(t, 2, 6, 4.0, 4.0);
    TotalClosedForm(t, 2);
    SeedArithmetic2(Normalize(t)[2]);
  }

  /** Their total scores are 0.9, 0.8 and 19/24. */
  lemma SeedTotals()
    ensures TotalScores(ScoreTable(SeedBatch)) == [0.9, 0.8, 19.0 / 24.0]
  {
    SeedTotal0();
    SeedTotal1();
    SeedTotal2();
  }

  /** The Asus Zenbook 14 is the recommendation, ahead of the Lenovo Legion 5 and
      then the MacBook Air M2. */
  lemma SeedRanking()
    ensures SortByTotal(Entries(SeedBatch))
         == [Entry(AsusZenbook, 0.9), Entry(LenovoLegion, 0.8), Entry(MacBookAir, 19.0 / 24.0)]
  {
    SeedTotals();
    var es := Entries(SeedBatch);
    assert es == [Entry(AsusZenbook, 0.9), Entry(LenovoLegion, 0.8), Entry(MacBookAir, 19.0 / 24.0)];
    assert es[1..] == [Entry(LenovoLegion, 0.8), Entry(MacBookAir, 19.0 / 24.0)];
    assert es[2..] == [Entry(MacBookAir, 19.0 / 24.0)];
    assert SortByTotal(es[3..]) == [];
  }
}
