/** The score mapper: one laptop row becomes seven integer scores on a 1..4 scale.
    Price is a cost criterion scored by inclusive thresholds; the six other
    criteria are benefit criteria scored by dictionary lookup, where a value that
    is not in the dictionary scores 1 (the lenient policy of `dict.get(key, 1)`). */
module Scoring {

  /** The seven scored criteria, named as the columns of the score table. */
  datatype Criterion = Harga | RAM | Performa | Penyimpanan | GPU | Portabilitas | Baterai

  /** Column order of a score row: the insertion order of the `scores` dictionary. */
  const Criteria: seq<Criterion> := [Harga, RAM, Performa, Penyimpanan, GPU, Portabilitas, Baterai]

  /** One row of the laptop table, with its ten columns. */
  datatype Laptop = Laptop(
    nama: string,          // Nama Laptop
    harga: nat,            // Harga, in Rupiah
    ram: string,
    performa: string,
    penyimpanan: string,
    gpu: string,
    portabilitas: string,
    baterai: string,
    merek: string,         // brand: collected, never scored
    kegiatan: string)      // intended use: collected, never scored

  /** Upper bounds (inclusive) of the price bands that score 4, 3 and 2. */
  const PriceBands: seq<int> := [7000000, 12000000, 20000000]

  /** Column index of a criterion in a score row. */
  function Col(c: Criterion): (j: nat)
    ensures j < |Criteria| && Criteria[j] == c
    ensures forall k :: 0 <= k < |Criteria| && Criteria[k] == c ==> k == j
  {
    match c
    case Harga => 0
    case RAM => 1
    case Performa => 2
    case Penyimpanan => 3
    case GPU => 4
    case Portabilitas => 5
    case Baterai => 6
  }

  /** Price score: cheaper is better. A price scores at least 4 - k exactly when it
      lies at or below the k-th band bound, so every band includes its upper bound. */
  function PriceScore(harga: int): (s: int)
    ensures 1 <= s <= 4
    ensures forall k :: 0 <= k < |PriceBands| ==> (s >= 4 - k <==> harga <= PriceBands[k])
  {
    if harga <= 7000000 then 4
    else if harga <= 12000000 then 3
    else if harga <= 20000000 then 2
    else 1
  }

  /** The price score never increases as the price increases. */
  lemma PriceScoreAntitone(p: int, q: int)
    requires p <= q
    ensures PriceScore(q) <= PriceScore(p)
  {
  }

  /** `table.get(key, 1)`: a value missing from the table scores the worst score. */
  function Lookup(table: map<string, int>, key: string): int
  {
    if key in table then table[key] else 1
  }

  /** The labels of a categorical criterion, from worst tier to best tier. */
  function Tiers(c: Criterion): (t: seq<string>)
    requires c != Harga
    ensures |t| == if c == RAM then 3 else 4
  {
    match c
    case RAM => ["8GB", "16GB", "32GB"]
    case Performa => ["Intel i3 / Ryzen 3", "Intel i5 / Ryzen 5", "Intel i7 / Ryzen 7", "Intel i9 / Ryzen 9"]
    case Penyimpanan => ["HDD", "SSD 256GB", "SSD 512GB", "SSD 1TB"]
    case GPU => ["Integrated", "GTX", "RTX", "Dedicated High-End"]
    case Portabilitas => ["> 2.5 kg", "2 – 2.5 kg", "1.5 – 2 kg", "< 1.5 kg"]
    case Baterai => ["< 4 jam", "4 – 6 jam", "6 – 8 jam", "> 8 jam"]
  }

  /** The lookup table of a categorical criterion. */
  function Table(c: Criterion): map<string, int>
    requires c != Harga
  {
    match c
    case RAM => map["8GB" := 1, "16GB" := 2, "32GB" := 4]
    case Performa => map["Intel i3 / Ryzen 3" := 1, "Intel i5 / Ryzen 5" := 2, "Intel i7 / Ryzen 7" := 3, "Intel i9 / Ryzen 9" := 4]
    case Penyimpanan => map["HDD" := 1, "SSD 256GB" := 2, "SSD 512GB" := 3, "SSD 1TB" := 4]
    case GPU => map["Integrated" := 1, "GTX" := 2, "RTX" := 3, "Dedicated High-End" := 4]
    case Portabilitas => map["> 2.5 kg" := 1, "2 – 2.5 kg" := 2, "1.5 – 2 kg" := 3, "< 1.5 kg" := 4]
    case Baterai => map["< 4 jam" := 1, "4 – 6 jam" := 2, "6 – 8 jam" := 3, "> 8 jam" := 4]
  }

  /** The raw value a row holds for a categorical criterion. */
  function Label(row: Laptop, c: Criterion): string
    requires c != Harga
  {
    match c
    case RAM => row.ram
    case Performa => row.performa
    case Penyimpanan => row.penyimpanan
    case GPU => row.gpu
    case Portabilitas => row.portabilitas
    case Baterai => row.baterai
  }

  /** The score of one row on one criterion. */
  function Score(row: Laptop, c: Criterion): (s: int)
    ensures 1 <= s <= 4
  {
    if c == Harga then PriceScore(row.harga)
    else
      TableRange(c, Label(row, c));
      Lookup(Table(c), Label(row, c))
  }

  /** `convert_to_score`: the seven scores of a row, in column order. */
  function ConvertToScore(row: Laptop): (s: seq<int>)
    ensures |s| == |Criteria|
    ensures forall j :: 0 <= j < |s| ==> 1 <= s[j] <= 4
  {
    seq(|Criteria|, j requires 0 <= j < |Criteria| => Score(row, Criteria[j]))
  }

  /** Every table value is a score in 1..4, so every lookup is one too. */
  lemma TableRange(c: Criterion, key: string)
    requires c != Harga
    ensures 1 <= Lookup(Table(c), key) <= 4
  {
  }

  /** The table's keys are exactly the listed tiers. */
  lemma TableKeysAreTiers(c: Criterion)
    requires c != Harga
    ensures forall key :: key in Table(c) <==> key in Tiers(c)
  {
  }

  /** Along the tier order the lookup gives 1, 2, 4 for RAM (3 is skipped) and
      1, 2, 3, 4 for the five other categorical criteria. */
  lemma TierScores(c: Criterion, k: nat)
    requires c != Harga && k < |Tiers(c)|
    ensures Lookup(Table(c), Tiers(c)[k]) == if c == RAM && k == 2 then 4 else k + 1
  {
  }

  /** Lookups never decrease along the tier order; they strictly increase. */
  lemma TierScoresIncrease(c: Criterion, k: nat, l: nat)
    requires c != Harga && k < l < |Tiers(c)|
    ensures Lookup(Table(c), Tiers(c)[k]) < Lookup(Table(c), Tiers(c)[l])
  {
    TierScores(c, k);
    TierScores(c, l);
  }

  /** A categorical value that is not one of the listed tiers scores 1. */
  lemma UnknownScoresOne(row: Laptop, c: Criterion)
    requires c != Harga && Label(row, c) !in Tiers(c)
    ensures Score(row, c) == 1
  {
    TableKeysAreTiers(c);
  }

  /** Scoring reads only the seven criterion columns: name, brand and intended
      use never change a score. */
  lemma ScoreIgnoresOtherColumns(row: Laptop, nama: string, merek: string, kegiatan: string)
    ensures ConvertToScore(row.(nama := nama, merek := merek, kegiatan := kegiatan)) == ConvertToScore(row)
  {
  }

  /** Two rows that agree on the seven criterion columns get the same scores. */
  lemma SameCriteriaSameScores(a: Laptop, b: Laptop)
    requires a.harga == b.harga && a.ram == b.ram && a.performa == b.performa
    requires a.penyimpanan == b.penyimpanan && a.gpu == b.gpu
    requires a.portabilitas == b.portabilitas && a.baterai == b.baterai
    ensures ConvertToScore(a) == ConvertToScore(b)
  {
  }
}
