# Laptop ranking engine

A model of the ranking engine behind a small laptop recommender. The engine
ranks a batch of laptops that the user has entered. It runs in four stages:

1. **Score mapper** (`convert_to_score`). Each laptop row becomes seven integer
   scores on a 1..4 scale.
   - Price is a cost criterion. It is scored by inclusive thresholds at
     7,000,000, 12,000,000 and 20,000,000 Rupiah, and a cheaper laptop scores
     higher.
   - RAM, Performa, Penyimpanan, GPU, Portabilitas and Baterai are benefit
     criteria. Each is scored by a fixed dictionary lookup.
   - A value that is not in its dictionary scores 1.
2. **Max-normalization.** Every score column is divided by its maximum over
   the batch.
3. **Weighting.** In a loop over the `weights` dictionary, each normalized
   column is multiplied in place by its criterion's weight. Harga .30,
   Performa .20, RAM .15, GPU .15, Penyimpanan .10, Baterai .05 and
   Portabilitas .05 add up to 1. Every row is then summed into `Total Skor`.
4. **Ranking.** The rows are sorted by `Total Skor`, highest first. The first
   row is the recommendation.

An empty batch only raises a warning.

The modules follow the stages:

- `Scoring` is the score mapper.
- `Normalization` is the max-normalizer.
- `Aggregation` holds the weights, the row sum and the total scores.
- `Ranking` is the descending sort.
- `Engine` is the button handler. It holds the empty guard, the in-place
  weighting loop over a two-dimensional array, the row sums and the final
  recommendation.
- `Fixtures` holds the three demo laptops the table is seeded with, and what
  the engine makes of them.

How the model represents things:

- A laptop row is a `Laptop` datatype. It has the table's ten columns. Its
  categorical columns are kept as strings, as they are in the data frame.
- Each lookup dictionary is a `map<string, int>`, and `.get(key, 1)` is
  `Scoring.Lookup`.
- All arithmetic is over `real`.
- `Total Skor` is computed in two ways. The specification function
  `Aggregation.TotalScores` works on sequences. The imperative path in
  `Engine.Calculate` builds an array, weights it in place and sums its rows.
  `Engine.RowSumsAreTotals` proves the two agree.

## Model

| member | source | states |
|---|---|---|
| Scoring.PriceScore | app.py:32-35 | The price score lies in 1..4. It is at least 4, 3 or 2 exactly when the price is at most 7,000,000, 12,000,000 or 20,000,000 respectively, so every band includes its upper bound. |
| Scoring.PriceScoreAntitone | app.py:32-35 | The price score never increases as the price increases. |
| Scoring.Lookup | app.py:38-43 | `dict.get(key, 1)`: a listed key gives its table value and any other string gives 1. Its contract is stated by Scoring.TierScores, Scoring.UnknownScoresOne and Scoring.TableRange. |
| Scoring.Table | app.py:38-43 | The six lookup dictionaries. Their keys are the listed tiers (Scoring.TableKeysAreTiers) and their values run 1, 2, 4 for RAM and 1, 2, 3, 4 for the others (Scoring.TierScores). |
| Scoring.Score | app.py:32-43 | Every criterion score of every row lies in 1..4. |
| Scoring.ConvertToScore | app.py:29-44 | A row yields exactly seven scores, each in 1..4. |
| Scoring.TableRange | app.py:38-43 | Every lookup, of a listed key or of any other string, gives a value in 1..4. |
| Scoring.TableKeysAreTiers | app.py:38-43 | The keys of each lookup dictionary are exactly that criterion's listed tiers. |
| Scoring.TierScores | app.py:38-43 | Along the tier order, RAM scores 1, 2, 4 (3 is skipped). The other five categorical criteria score 1, 2, 3, 4. |
| Scoring.TierScoresIncrease | app.py:38-43 | The lookups strictly increase along the tier order, so they never decrease. |
| Scoring.UnknownScoresOne | app.py:38-43 | A categorical value that is not a listed tier scores 1. |
| Scoring.ScoreIgnoresOtherColumns | app.py:29-44 | Changing Nama Laptop, Merek or Kegiatan never changes a row's scores. |
| Scoring.SameCriteriaSameScores | app.py:29-44 | Rows that agree on the seven criterion columns get the same scores. |
| Normalization.ScoreTable | app.py:104 | Scoring a batch gives one row of seven scores in 1..4 per laptop. |
| Normalization.ColumnMax | app.py:107 | `scored_df.max()` for one column. Normalization.ColumnMaxIsMax states that it is attained and bounds the column, and Normalization.ColumnMaxRange that it lies in 1..4. |
| Normalization.ColumnMaxIsMax | app.py:107 | The column maximum is attained by some row and bounds every row. |
| Normalization.ColumnMaxRange | app.py:107 | On a non-empty score table every column maximum lies in 1..4, so the division never divides by zero. |
| Normalization.Normalize | app.py:107 | `scored_df / scored_df.max()`: one row of seven values per score row. Normalization.NormalizedBounds and Normalization.ColumnReachesOne state its range and where it equals 1. |
| Normalization.NormalizedBounds | app.py:107 | Every normalized value lies in [0.25, 1], so in (0, 1]. It equals 1 exactly for the rows that attain the column maximum. |
| Normalization.ScoreQuotient | app.py:107 | A score in 1..m over a column maximum m of at most 4 lies in [0.25, 1], and it is 1 exactly when the score is the maximum. |
| Normalization.ColumnReachesOne | app.py:107 | Every column has a row normalized to exactly 1. |
| Normalization.QuotientMonotone | app.py:107 | Real-arithmetic helper of Normalization.LowerScoreNormalizesLower: a smaller numerator over a larger positive denominator gives a smaller quotient. |
| Normalization.LowerScoreNormalizesLower | app.py:107 | Lowering one row's score in a column, with the rest of the column unchanged, never raises that row's normalized value. |
| Normalization.SameColumnSameNormalized | app.py:107 | Tables that agree on a column normalize it identically. |
| Normalization.ColumnMaxSameRows | app.py:107 | The column maximum depends only on which rows the batch holds, not on their positions. |
| Normalization.NormalizeSameRows | app.py:107 | In two batches holding the same rows, equal rows normalize to equal rows. |
| Aggregation.Weight | app.py:97-100 | Every weight lies strictly between 0 and 1. |
| Aggregation.WeightOrderIsPermutation | app.py:97-111 | The weights dictionary names each of the seven criteria exactly once, so the loop visits every column once. |
| Aggregation.WeightsSumToOne | app.py:96-100 | The seven weights add up to 1. |
| Aggregation.Sum | app.py:114 | `sum(axis=1)` of one row, left to right. Aggregation.SumMonotone and Aggregation.SumScale state how it responds to the row's values. |
| Aggregation.WeightRow | app.py:110-111 | One normalized row after the weighting loop, with seven values, each its normalized value times its column's weight. Engine.ApplyWeights states the same for the in-place loop. |
| Aggregation.TotalScores | app.py:104-114 | The `Total Skor` column, one total per row. Aggregation.TotalClosedForm gives it as the weighted sum and Aggregation.TotalBounds bounds it to [0.25, 1.0]. |
| Aggregation.SumMonotone | app.py:114 | The row sum respects a pointwise order. |
| Aggregation.SumScale | app.py:114 | Scaling every entry of a row scales its sum. |
| Aggregation.TotalClosedForm | app.py:104-114 | Each total is 0.30, 0.15, 0.20, 0.10, 0.15, 0.05 and 0.05 times the row's normalized Harga, RAM, Performa, Penyimpanan, GPU, Portabilitas and Baterai scores, added up. |
| Aggregation.TotalBounds | app.py:96-114 | Every total score lies in [0.25, 1.0]. |
| Aggregation.WeightedSumBounds | app.py:110-114 | A weighted row whose values lie in [0.25, 1] sums to a value in [0.25, 1]. |
| Aggregation.TotalScoresSameRows | app.py:104-114 | In two batches holding the same rows, equal rows get equal totals. |
| Ranking.Insert | app.py:117 | Inserting into a descending sequence keeps it descending and adds exactly that entry. |
| Ranking.SortByTotal | app.py:117 | The ranked table is sorted by total from highest to lowest and is a permutation of its input. |
| Ranking.FirstIsBest | app.py:117-124 | The first ranked entry is an input entry, and its total is at least that of every input entry. |
| Engine.Entries | app.py:114 | The copied table with its `Total Skor` column, one entry per laptop in input order. Engine.RankedFacts and Engine.EntriesPermutation state its properties. |
| Engine.RowSums | app.py:114 | `norm_df.sum(axis=1)` over the weighted array, one sum per row. Engine.RowSumsAreTotals equates it with the total scores. |
| Engine.ApplyWeights | app.py:110-111 | After the in-place loop over the weights dictionary, every cell equals its old value times its column's weight. No cell is weighted twice or missed. |
| Engine.RowSumsAreTotals | app.py:114 | After the weighting loop, the array's row sums are exactly the total scores. |
| Engine.RankedFacts | app.py:117-124 | The ranked table of a non-empty batch has one entry per laptop and is a sorted permutation of the batch's entries. Its first total is the largest, its rows are the batch's rows, and every total lies in [0.25, 1.0]. |
| Engine.Calculate | app.py:90-124 | An empty batch gives only the warning, and any other batch gives a recommendation. The ranked table is `SortByTotal` of the batch's rows with their totals. That is a permutation sorted from highest to lowest total, with ties in the insertion sort's order. The recommendation is its first row, and it has the largest total. The input batch is a value parameter and is left unchanged. |
| Engine.PriceRaiseNeverHelps | app.py:32-114 | Raising one laptop's price, with the rest of the batch unchanged, never raises its total score. |
| Engine.SameCriteriaSameTotal | app.py:104-114 | Two laptops of a batch that agree on the seven criterion columns get the same total. |
| Engine.EntriesPermutation | app.py:104-117 | Order-invariance. Any reordering of the batch leaves the multiset of (row, total) pairs unchanged, and so also the multiset of ranked entries. |
| Fixtures.SeedScores | app.py:48-52 | The seeded rows score [2,2,3,3,1,4,4], [1,2,3,3,3,2,2] and [2,1,3,2,1,4,4]. |
| Fixtures.SeedMaxima | app.py:107 | The seeded column maxima are 2, 2, 3, 3, 3, 4, 4. |
| Fixtures.SeedTotals | app.py:48-114 | The seeded totals are 0.9, 0.8 and 19/24. |
| Fixtures.SeedRanking | app.py:48-124 | The seed batch ranks Asus Zenbook 14 first, then Lenovo Legion 5, then MacBook Air M2. |

## Left out

- The user interface is not modelled, because it is presentation and I/O. This covers the page configuration and CSS, the input form, toasts, warnings, charts and the final tables (app.py:6-26, 55-87, 120-133).
- The session-state store and the row append (app.py:47-52, 79) are not modelled. The batch is a parameter of `Engine.Calculate`, and the seed rows are constants in `Fixtures`.
- The copy at app.py:94 is not modelled as a separate step. A `seq` is a value, so the stored batch cannot change.
- Floating point is not modelled. Arithmetic is over exact `real`, so float rounding of the quotients and of the sum is not captured. Neither is exact-equality of totals that differ only by rounding.
- pandas internals are not modelled. `df.apply`, `DataFrame.max` and `sum(axis=1)` stand for the plain sequence operations they compute.
- Ranking.SortByTotal promises no tie-break. A stable sort would keep equal totals in their input order, but the code calls `sort_values` with pandas' default quicksort, which is not stable. So only "sorted from highest to lowest, and a permutation" is stated. The model's insertion sort happens to be stable. Only Engine.Calculate's equation with `SortByTotal` depends on that order, as the next line says.
- Engine.Calculate returns `SortByTotal` of the entries, which is one particular order among those the code allows. The insertion sort keeps equal totals in input order, though no lemma states this. The code allows any order of equal totals, and the contract's sorted, permutation and first-is-largest clauses hold for every such order.
- Scoring of Merek and Kegiatan, and the alternative eight-criterion weight preset, are not modelled, because this file has neither. Merek and Kegiatan are collected but never scored.
- A weights dictionary missing a criterion cannot occur, because the dictionary is a constant covering all seven columns.
- `best`'s display with three decimals (app.py:125) is not modelled, because it is presentation.
