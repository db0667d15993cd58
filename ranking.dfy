/** The ranker: the rows of the batch, each with its total score, sorted by total
    score from highest to lowest (`sort_values(by='Total Skor', ascending=False)`). */
module Ranking {
  import opened Scoring

  /** A row of the copied table together with its `Total Skor` column. */
  datatype Entry = Entry(laptop: Laptop, total: real)

  /** Non-increasing by total score. */
  predicate SortedDesc(s: seq<Entry>)
  {
    forall i, j :: 0 <= i < j < |s| ==> s[i].total >= s[j].total
  }

  /** Inserts an entry into a sorted sequence, keeping it sorted. */
  function Insert(e: Entry, s: seq<Entry>): (r: seq<Entry>)
    requires SortedDesc(s)
    ensures SortedDesc(r)
    ensures multiset(r) == multiset(s) + multiset{e}
    ensures |r| == |s| + 1 && (r[0] == e || (s != [] && r[0] == s[0]))
  {
    if s == [] || e.total >= s[0].total then
      [e] + s
    else
      var rest := Insert(e, s[1..]);
      assert s == [s[0]] + s[1..];
      [s[0]] + rest
  }

  /** The ranked order: a permutation of the input, sorted by total score from
      highest to lowest. Nothing about the relative order of equal totals is
      promised. */
  function SortByTotal(s: seq<Entry>): (r: seq<Entry>)
    ensures SortedDesc(r)
    ensures multiset(r) == multiset(s)
  {
    if s == [] then []
    else
      assert s == [s[0]] + s[1..];
      Insert(s[0], SortByTotal(s[1..]))
  }

  /** The first ranked entry has a total at least that of every input entry, and
      it is one of the input entries. */
  lemma {:induction false} FirstIsBest(s: seq<Entry>)
    requires |s| > 0
    ensures |SortByTotal(s)| == |s|
    ensures SortByTotal(s)[0] in s
    ensures forall k :: 0 <= k < |s| ==> SortByTotal(s)[0].total >= s[k].total
  {
    var r := SortByTotal(s);
    assert |r| == |multiset(r)| == |multiset(s)| == |s|;
    assert r[0] in multiset(r);
    forall k | 0 <= k < |s|
      ensures r[0].total >= s[k].total
    {
      assert s[k] in multiset(r);
      var l :| 0 <= l < |r| && r[l] == s[k];
    }
  }
}
