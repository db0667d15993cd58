/** The calculation behind the "HITUNG SKOR TERBAIK" button: copy the batch,
    score it, normalize it, weight it in place, sum every row into its total
    score, rank the rows and recommend the first one. */
module Engine {
  import opened Scoring
  import opened Normalization
  import opened Aggregation
  import opened Ranking

  /** What the calculation shows: a warning for an empty batch, or the ranked
      table together with its first row as the recommendation. */
  datatype Outcome = NoData | Recommendation(hasil: seq<Entry>, best: Entry)

  /** The copied table with its `Total Skor` column, in input order. */
  function Entries(data: seq<Laptop>): (es: seq<Entry>)
    requires |data| > 0
    ensures |es| == |data|
  {
    var totals := TotalScores(ScoreTable(data));
    seq(|data|, i requires 0 <= i < |data| => Entry(data[i], totals[i]))
  }

  /** `norm_df.sum(axis=1)`: the sum of every row of a table. */
  function RowSums(a: array2<real>): (sums: seq<real>)
    reads a
    ensures |sums| == a.Length0
  {
    seq(a.Length0, i requires 0 <= i < a.Length0 reads a =>
      Sum(seq(a.Length1, j requires 0 <= j < a.Length1 reads a => a[i, j])))
  }

  /** The weighting loop: for every (criterion, weight) of the `weights` dictionary,
      in its order, the criterion's column is multiplied by the weight in place.
      Afterwards every column has been multiplied by its own weight exactly once. */
  method ApplyWeights(norm: array2<real>)
    requires norm.Length1 == |Criteria|
    modifies norm
    ensures forall i, j :: 0 <= i < norm.Length0 && 0 <= j < norm.Length1 ==>
      norm[i, j] == old(norm[i, j]) * Weight(Criteria[j])
  {
    for k := 0 to |WeightOrder|
      invariant forall i, j :: 0 <= i < norm.Length0 && 0 <= j < norm.Length1 ==>
        norm[i, j] == old(norm[i, j]) * Factor(Criteria[j], Pos(Criteria[j]) < k)
    {
      var col := Col(WeightOrder[k]);
      var weight := Weight(WeightOrder[k]);
      for r := 0 to norm.Length0
        invariant forall i, j :: 0 <= i < norm.Length0 && 0 <= j < norm.Length1 ==>
          norm[i, j] == old(norm[i, j]) * Factor(Criteria[j], Pos(Criteria[j]) < k || (j == col && i < r))
      {
        norm[r, col] := norm[r, col] * weight;
      }
    }
  }

  /** The multiplier a column has received so far: its weight once it is done. */
  function Factor(c: Criterion, done: bool): real
  {
    if done then Weight(c) else 1.0
  }

  /** After the weighting loop, the row sums are the total scores. */
  lemma RowSumsAreTotals(a: array2<real>, t: seq<seq<int>>)
    requires |t| > 0 && IsScoreTable(t)
    requires a.Length0 == |t| && a.Length1 == |Criteria|
    requires forall i, j :: 0 <= i < a.Length0 && 0 <= j < a.Length1 ==>
      a[i, j] == Normalize(t)[i][j] * Weight(Criteria[j])
    ensures RowSums(a) == TotalScores(t)
  {
    var n := Normalize(t);
    forall i | 0 <= i < |t|
      ensures RowSums(a)[i] == TotalScores(t)[i]
    {
      assert seq(a.Length1, j requires 0 <= j < a.Length1 reads a => a[i, j]) == WeightRow(n[i]);
    }
  }

  /** The ranked table of a non-empty batch: a sorted permutation of its entries,
      whose first row has the largest total, whose rows are the batch's rows and
      whose totals lie in [0.25, 1.0]. */
  lemma RankedFacts(data: seq<Laptop>)
    requires |data| > 0
    ensures var hasil := SortByTotal(Entries(data));
      && |hasil| == |data|
      && SortedDesc(hasil)
      && multiset(hasil) == multiset(Entries(data))
      && (forall k :: 0 <= k < |hasil| ==> hasil[0].total >= hasil[k].total)
      && (forall k :: 0 <= k < |hasil| ==> hasil[k].laptop in data)
      && (forall k :: 0 <= k < |hasil| ==> 0.25 <= hasil[k].total <= 1.0)
  {
    var entries := Entries(data);
    var hasil := SortByTotal(entries);
    FirstIsBest(entries);
    forall k | 0 <= k < |hasil|
      ensures hasil[0].total >= hasil[k].total
    {
      assert hasil[k] in multiset(entries);
    }
    forall k | 0 <= k < |hasil|
      ensures hasil[k].laptop in data && 0.25 <= hasil[k].total <= 1.0
    {
      assert hasil[k] in multiset(entries);
      var i :| 0 <= i < |entries| && entries[i] == hasil[k];
      TotalBounds(ScoreTable(data), i);
    }
  }

  /** The whole calculation. An empty batch only raises the warning; otherwise the
      result is the batch's rows, each with its total score, as a permutation
      sorted from highest to lowest total, and the recommendation is its first row,
      whose total is the largest. Every total lies in [0.25, 1.0]. */
  method Calculate(data: seq<Laptop>) returns (out: Outcome)
    ensures out.NoData? <==> |data| == 0
    ensures |data| > 0 ==> out.hasil == SortByTotal(Entries(data))
    ensures out.Recommendation? ==>
      && |out.hasil| == |data|
      && SortedDesc(out.hasil)
      && multiset(out.hasil) == multiset(Entries(data))
      && out.best == out.hasil[0]
      && (forall k :: 0 <= k < |out.hasil| ==> out.best.total >= out.hasil[k].total)
      && (forall k :: 0 <= k < |out.hasil| ==> out.hasil[k].laptop in data)
      && (forall k :: 0 <= k < |out.hasil| ==> 0.25 <= out.hasil[k].total <= 1.0)
  {
    if |data| < 1 {
      return NoData;
    }
    var df := data;
    var m := |df|;
    var scored := ScoreTable(df);
    var normalized := Normalize(scored);
    var norm := new real[m, |Criteria|]((i, j) requires 0 <= i < m && 0 <= j < |Criteria| => normalized[i][j]);
    ApplyWeights(norm);
    RowSumsAreTotals(norm, scored);
    var totalSkor := RowSums(norm);
    var entries := seq(m, i requires 0 <= i < m => Entry(df[i], totalSkor[i]));
    assert entries == Entries(data);
    var hasil := SortByTotal(entries);
    RankedFacts(data);
    out := Recommendation(hasil, hasil[0]);
  }

  /** Order-invariance: reordering the batch (any permutation of its rows) leaves
      the multiset of (row, total) pairs unchanged, so the ranked table holds the
      same entries; only the relative order of equal totals may differ. */
  lemma EntriesPermutation(data: seq<Laptop>, other: seq<Laptop>)
    requires |data| > 0 && multiset(data) == multiset(other)
    ensures multiset(Entries(other)) == multiset(Entries(data))
    ensures multiset(SortByTotal(Entries(other))) == multiset(SortByTotal(Entries(data)))
  {
    assert |other| == |multiset(other)| == |multiset(data)| == |data|;
    var t, u := ScoreTable(data), ScoreTable(other);
    forall r | 0 <= r < |t|
      ensures t[r] in u
    {
      assert data[r] in multiset(other);
      var l :| 0 <= l < |other| && other[l] == data[r];
      assert u[l] == t[r];
    }
    forall r | 0 <= r < |u|
      ensures u[r] in t
    {
      assert other[r] in multiset(data);
      var l :| 0 <= l < |data| && data[l] == other[r];
      assert t[l] == u[r];
    }
    forall i, k | 0 <= i < |data| && 0 <= k < |other| && data[i] == other[k]
      ensures Entries(data)[i] == Entries(other)[k]
    {
      TotalScoresSameRows(t, u, i, k);
    }
    PairedPermutation(data, other, Entries(data), Entries(other));
  }

  /** If two sequences are permutations of each other and equal elements are
      paired with equal entries, the entries are permutations of each other. */
  lemma {:induction false} PairedPermutation(s: seq<Laptop>, s': seq<Laptop>, es: seq<Entry>, es': seq<Entry>)
    requires |es| == |s| && |es'| == |s'| && multiset(s) == multiset(s')
    requires forall i, k :: 0 <= i < |s| && 0 <= k < |s'| && s[i] == s'[k] ==> es[i] == es'[k]
    ensures multiset(es) == multiset(es')
  {
    if s == [] {
      assert |s'| == |multiset(s')| == 0;
    } else {
      assert s[0] in multiset(s');
      var k :| 0 <= k < |s'| && s'[k] == s[0];
      var rest, rest' := RemoveAt(s', k), RemoveAt(es', k);
      assert s == [s[0]] + s[1..];
      assert es == [es[0]] + es[1..];
      CancelOne(multiset(s[1..]), multiset(rest), s[0]);
      forall i, l | 0 <= i < |s[1..]| && 0 <= l < |rest| && s[1..][i] == rest[l]
        ensures es[1..][i] == rest'[l]
      {
        var m := if l < k then l else l + 1;
        assert rest[l] == s'[m] && rest'[l] == es'[m];
      }
      PairedPermutation(s[1..], rest, es[1..], rest');
    }
  }

  /** A sequence without its k-th element. */
  function RemoveAt<T>(s: seq<T>, k: nat): (r: seq<T>)
    requires k < |s|
    ensures |r| == |s| - 1
    ensures multiset(s) == multiset(r) + multiset{s[k]}
    ensures forall l :: 0 <= l < |r| ==> r[l] == s[if l < k then l else l + 1]
  {
    assert s == s[..k] + [s[k]] + s[k + 1..];
    s[..k] + s[k + 1..]
  }

  /** Removing one copy of the same element from equal multisets leaves equal multisets. */
  lemma CancelOne<T>(x: multiset<T>, y: multiset<T>, e: T)
    requires multiset{e} + x == y + multiset{e}
    ensures x == y
  {
    forall z
      ensures x[z] == y[z]
    {
      assert (multiset{e} + x)[z] == (y + multiset{e})[z];
    }
  }

  /** Raising one laptop's price, with every other value of the batch unchanged,
      never raises that laptop's total score. */
  lemma PriceRaiseNeverHelps(data: seq<Laptop>, i: nat, p: nat)
    requires i < |data| && data[i].harga <= p
    ensures Entries(data[i := data[i].(harga := p)])[i].total <= Entries(data)[i].total
  {
    var raised := data[i := data[i].(harga := p)];
    var t, u := ScoreTable(data), ScoreTable(raised);
    var n, v := Normalize(t)[i], Normalize(u)[i];
    PriceScoreAntitone(data[i].harga, p);
    forall j | 0 <= j < |Criteria|
      ensures v[j] * Weight(Criteria[j]) <= n[j] * Weight(Criteria[j])
    {
      if j == Col(Harga) {
        LowerScoreNormalizesLower(t, u, i, j);
      } else {
        SameColumnSameNormalized(t, u, i, j);
      }
    }
    SumMonotone(WeightRow(v), WeightRow(n));
  }

  /** Two laptops of a batch that agree on the seven criterion columns get the
      same total score, whatever their names, brands and intended uses. */
  lemma SameCriteriaSameTotal(data: seq<Laptop>, i: nat, j: nat)
    requires i < |data| && j < |data|
    requires data[i].harga == data[j].harga && data[i].ram == data[j].ram
    requires data[i].performa == data[j].performa && data[i].penyimpanan == data[j].penyimpanan
    requires data[i].gpu == data[j].gpu && data[i].portabilitas == data[j].portabilitas
    requires data[i].baterai == data[j].baterai
    ensures Entries(data)[i].total == Entries(data)[j].total
  {
    var t := ScoreTable(data);
    SameCriteriaSameScores(data[i], data[j]);
    assert t[i] == t[j];
    assert Normalize(t)[i] == Normalize(t)[j];
  }
}
