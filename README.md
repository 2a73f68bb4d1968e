# Song recommender: similarity, prediction and cross-validation metrics

This project models the core of a collaborative-filtering song recommender in Dafny. Each user
is a list of (song, listening count) pairs, sorted by song name. The model covers:

- `cosBetweenTwoUsers`: the cosine similarity of two users. It is a merge walk over their
  sorted lists.
- `predictSongListening`: predicts a user's count for one song. It ranks every user of the
  catalog by "has the song, then similarity", selects the top K with `nth_element` and
  averages their counts for the song.
- The evaluation harness:
  - `crossValidationRMSE`: holds out each first-block user's last song and sums the squared
    prediction errors.
  - `DCG` and `nDCG`: ranking quality of a recommended list against the user's real counts.
  - `Gini`: how unevenly recommendations are spread over the catalog.
  - `crossValidateNDCGandGini`: ranks each held-out user's last `topN` songs, tallies every
    recommendation in a song-to-count map and computes Gini over that map.

Modules:

- `Songs`: song identifiers, `std::string` ordering (`Lt`), sorted users, `find_if` lookups.
- `Sorting`: `std::sort`, modelled as an insertion sort on an integer key.
- `Similarity`: `cosBetweenTwoUsers`.
- `Prediction`: `predictSongListening` and its `nth_element`.
- `Counter`: the `timesRecommended` map.
- `Metrics`: `DCG`, `nDCG`, `Gini`.
- `CrossValidation`: the two cross-validation routines.

Every routine that loops or mutates is a `method`. Most methods are proved equal to a
specification function, and the properties of those functions are lemmas. `NthElement` is
proved against the property `nth_element` promises instead: a permutation split at `topK - 1`. The users vector that the harnesses
clear and restore in place is an `array`, and so is the `cosResult` vector that `nth_element`
permutes.

Parameters stand in for the parts of the computation that are floating point or defined
outside the core:

- `finish: CosSums -> real` finishes the cosine. In the source this is
  `common / sqrt(fstSq * sndSq)`.
- `weight: nat -> real` is the DCG discount, `1 / log2(i + 1)` in the source. The ordering
  results rely only on it being non-negative and non-increasing (`DiscountsDecrease`).
- `predict: Predictor` stands for `predictFromNeighborsWithSongMark` and
  `predictSongsFromNearestNeighbors`, which are not part of this model. The model relies only
  on their returning one score per requested song.

The harness methods return the integer and real parts that the source then divides or takes the
square root of: `sqrSum` and `oneBlockSize`, each user's `dcg` and `idcg`, and the Gini weighted
sum.

Points where the code's behaviour is easy to misread; the model follows the code:

- The prediction is `sumOfMarks / topK` in unsigned integer division, so two neighbours with
  counts 1 and 0 predict 0, not 0.5.
- The RMSE harness evaluates only the first block's users, and only the last song of each.
- `predictSongListening` does not clamp `topK`. Values outside `1..size` are undefined
  behaviour in the code, so the model requires `1 <= topK <= |allUsersData|`.
- The similarity norms in the code cover only the songs the merge reached (fourth Findings row).
  `PredictSongListening` ranks neighbours by that cosine, as the code does. The separately
  named `PredictSongListeningFull` ranks them by the corrected whole-vector cosine.
- The Gini weights are `2 * i - size - 1` with a 0-based `i` (first Findings row). `Gini` and the
  as-written nDCG harness compute that sum. `GiniCorrected` and the restoring harness use the
  corrected weights.

## Model

| member | source | states |
|---|---|---|
| Songs.LtIrreflexive | recommender.cpp:98 | `std::string` `<` is strict: no song name is below itself |
| Songs.ScoreOfPositive | recommender.cpp:154-159 | `find_if` returns a positive count only for a song the user has |
| Songs.LtTransitive | recommender.cpp:98 | string `<` on song names is transitive |
| Songs.LtTrichotomy | recommender.cpp:92-104 | the merge's three branches (equal, less, greater) cover every pair of song names |
| Songs.LtAsymmetric | recommender.cpp:98-103 | `fstSong < sndSong` and `sndSong < fstSong` exclude each other and imply the names differ |
| Songs.SortedIsUnique | recommender.cpp:77 | a user sorted by song name lists each song at most once |
| Songs.ScoreOfAt | recommender.cpp:154-159 | `find_if` yields the first entry with the song |
| Songs.ScoreOfAbsent | recommender.cpp:158 | a user without the song contributes 0 |
| Songs.ScoreOfAppendNew | recommender.cpp:154-159 | looking a song up after appending a new entry adds that entry's count only for its own song |
| Sorting.SortBy | crossValidation.h:168-173 | the sort returns a permutation of its input, of the same length, non-increasing in the key |
| Sorting.InsertSorted | crossValidation.h:168-173 | inserting into a non-increasing list keeps it non-increasing |
| Sorting.SortedUnique | crossValidation.h:88 | two non-increasing permutations of the same multiset are equal when the key is injective, so the sort result does not depend on how it is computed |
| Sorting.SortDescending | crossValidation.h:88 | `sort(greater)` on relevances: same multiset and length, non-increasing |
| Sorting.SortAscending | crossValidation.h:102 | sorting the counts ascending gives the same multiset and length in non-decreasing order |
| Sorting.AscendingUnique | crossValidation.h:102 | two ascending permutations of the same counts are equal, so Gini does not depend on the map's iteration order |
| Similarity.CosBetweenTwoUsers | recommender.cpp:61-108 | either side empty gives 0 and zero sums. Otherwise the three accumulators equal the squared norms of each side's visited prefix and the full dot product, and the cosine is `finish` of them. Cauchy–Schwarz holds on the sums. The loop runs at most `|fst| + |snd|` times |
| Similarity.MergeStep | recommender.cpp:79-105 | one iteration keeps the merge invariant: the sums cover exactly the heads passed or marked as added, and at least one iterator advances |
| Similarity.MatchAdvance | recommender.cpp:92-97 | on equal songs both heads are counted once and their product is added to the common sum |
| Similarity.FstAdvance | recommender.cpp:98-100 | when the first song is smaller, only the first iterator moves, and the second head stays marked as added |
| Similarity.SndAdvance | recommender.cpp:101-103 | the mirror case for the second iterator |
| Similarity.ExitSums | recommender.cpp:79-107 | when the loop exits the accumulators are the visited-prefix norms and the full dot product, and Cauchy–Schwarz holds |
| Similarity.CauchyStep | recommender.cpp:84-93 | adding one pair of counts to all three sums preserves `common² <= fstSq * sndSq`, so the argument of `sqrt` bounds the common sum |
| Similarity.CommonAtExit | recommender.cpp:79-105 | songs after the point where either list ends are not shared, so the common sum is the full dot product |
| Similarity.VisitedAtExit | recommender.cpp:79-105 | at loop exit the first norm has counted exactly the entries of `fst` the merge reached: those whose song is below the last song of `snd`, plus the next one if there is one |
| Similarity.DotSymmetric | recommender.cpp:92-93 | the common-marks sum is symmetric in the two users |
| Similarity.AccumulatorsSymmetric | recommender.cpp:61-108 | swapping the users swaps the two norms and keeps the common sum |
| Similarity.AccumulatorsSelf | recommender.cpp:61-108 | a user compared with itself gets three equal sums (cosine 1 whenever `finish` is the true cosine) |
| Similarity.AccumulatorsOfEmpty | recommender.cpp:64-66 | an empty user gives zero sums |
| Similarity.PrefixNormExample | recommender.cpp:79-107 | the norms stop where either list ends: {A:1, B:1} against {A:1} gives sums (1, 1, 1), while the whole-vector norms are (2, 1, 1) |
| Similarity.SumOfSquares | recommender.cpp:84-88 | a full pass over one user sums its squared counts |
| Similarity.CosBetweenTwoUsersFull | recommender.cpp:61-108 | the corrected similarity: whole-vector norms and the full dot product, 0 for an empty side, and Cauchy–Schwarz |
| Similarity.FullSumsSymmetric | recommender.cpp:61-108 | the corrected sums are symmetric in the two users |
| Similarity.FullSumsSelf | recommender.cpp:61-108 | the corrected self-similarity has three equal sums |
| Prediction.Precedes | recommender.cpp:126-143 | the comparator `cosComparer`: a user with the song always precedes one without it, a user without it never precedes one with it, and a user preceding one with the song has a larger cosine |
| Prediction.PrecedesWithinGroup | recommender.cpp:138-142 | between two users that both have the song, or both lack it, one precedes the other exactly when its cosine is larger |
| Prediction.PrecedesIrreflexive | recommender.cpp:126-143 | the comparator is irreflexive |
| Prediction.PrecedesIncomparable | recommender.cpp:138-142 | neither of two users precedes the other exactly when both have the song or both lack it, and their cosines are equal |
| Prediction.IncomparableTransitive | recommender.cpp:126-143 | incomparability is transitive; with irreflexivity and transitivity the comparator is the strict weak order `nth_element` requires |
| Prediction.PrecedesTransitive | recommender.cpp:126-143 | the comparator (having the song first, then larger cosine) is transitive |
| Prediction.Candidates | recommender.cpp:117-123 | one candidate per catalog user; entry j carries index j and the `cosBetweenTwoUsers` value of user j, with the norms the merge reached |
| Prediction.CandidatesFull | recommender.cpp:117-123 | the same candidate vector with the corrected whole-vector cosine |
| Prediction.NthElement | recommender.cpp:146 | a permutation of the candidates where nothing at or after position `topK - 1` precedes anything at or before it |
| Prediction.SelectFirst | recommender.cpp:146 | finds a candidate in the unsorted part that no other candidate there precedes |
| Prediction.SwapSelects | recommender.cpp:146 | moving such a candidate to the front of the unsorted part extends the selected prefix and keeps the multiset |
| Prediction.ScoreCatalog | recommender.cpp:117-123 | `cosResult` holds `cosBetweenTwoUsers(userData, user)` for each catalog user, paired with its index |
| Prediction.ScoreCatalogFull | recommender.cpp:117-123 | the same loop with the corrected similarity |
| Prediction.SumTopMarks | recommender.cpp:148-161 | the sum over the top K of each neighbour's count for the song, 0 when the neighbour lacks it |
| Prediction.PredictSongListening | recommender.cpp:111-165 | the ranking is a permutation of the candidates split at `topK - 1`, and names each catalog user once. If any user outside the top K has the song, every top-K user has it. The prediction is the top-K sum of marks divided by `topK` in integer division, at most the largest count any user gives the song, and 0 when nobody has the song |
| Prediction.RankAndAverage | recommender.cpp:146-163 | `nth_element` then the mean: the same promises for any indexed candidate vector, stated against the vector before the call |
| Prediction.PredictSongListeningFull | recommender.cpp:111-165 | corrected: the same promises, with the candidates ranked by the whole-vector cosine |
| Prediction.Quotient | recommender.cpp:163 | `sumOfMarks / topK` in `size_t` rounds down: `q * topK <= sumOfMarks < q * topK + topK` |
| Prediction.TopHaveSong | recommender.cpp:138-141 | a split ranking puts the song's listeners first |
| Prediction.PredictionBound | recommender.cpp:163 | the integer average never exceeds the maximum count for the song, and is 0 when no user has it |
| Prediction.RankingIndices | recommender.cpp:150-151 | every ranked index addresses a catalog user, so `allUsersData[i->second]` is in range |
| Prediction.RankingDistinct | recommender.cpp:146 | the permuted candidates still name each user once |
| Prediction.SumOfMarksBound | recommender.cpp:148-161 | the sum of K marks is at most K times the maximum count |
| Prediction.NoMarks | recommender.cpp:158 | if nobody has the song, the maximum count is 0 |
| Counter.InitialCounter | crossValidation.h:135-138 | every catalog song is a key with count 0 |
| Counter.Increment | crossValidation.h:176 | `timesRecommended[song] += 1`: the song becomes a key, its count grows by one, and every other count is unchanged |
| Counter.TotalOfZeros | crossValidation.h:135-138 | the initial counter totals 0 |
| Counter.TotalIncrement | crossValidation.h:176 | `timesRecommended[song] += 1` raises the total by exactly one, whether or not the song was a key |
| Counter.TotalTally | crossValidation.h:175-177 | tallying n recommendations raises the total by n |
| Counter.TallyCounts | crossValidation.h:175-177 | each song's count grows by the number of times it is recommended, and the key set gains exactly the recommended songs |
| Counter.TotalRemove | crossValidation.h:99-100 | the total does not depend on which key is taken first, that is, on the map's iteration order |
| Counter.CountsOfRemove | crossValidation.h:99-100 | the multiset of counts does not depend on the iteration order |
| Counter.CountsOfSize | crossValidation.h:95-100 | there is one count per key |
| Metrics.DCG | crossValidation.h:60-70 | the loop computes the discounted sum: 0 for no relevances, the first relevance for one |
| Metrics.DcgIsDcgFrom | crossValidation.h:60-70 | the loop's front-to-back sum equals the offset-based definition used for the exchange argument |
| Metrics.GainExchange | crossValidation.h:66-68 | with non-increasing discounts, putting the larger relevance first never lowers the two-position sum |
| Metrics.InsertRaisesDcg | crossValidation.h:88-89 | inserting a relevance in sorted position never lowers DCG |
| Metrics.SortedDcgIsMaximal | crossValidation.h:88-89 | the sorted order has the largest DCG among all orders of the same relevances |
| Metrics.IdealDcgIsMaximal | crossValidation.h:87-89 | DCG of the predicted order is at most the ideal DCG |
| Metrics.DcgNonNegative | crossValidation.h:60-70 | DCG is non-negative |
| Metrics.Relevances | crossValidation.h:78-85 | one relevance per predicted song |
| Metrics.NDCG | crossValidation.h:72-92 | `dcg` is the DCG of the relevances in predicted order, `idcg` that of the same relevances sorted descending, and `0 <= dcg <= idcg`, so the ratio is at most 1 |
| Metrics.IdealOrderHasEqualDcg | crossValidation.h:72-92 | when the prediction is already ordered by real counts, `dcg == idcg` (nDCG is 1) |
| Metrics.GiniTermsUniform | crossValidation.h:106-107 | with the corrected weights, n equal counts c sum to `c * n * (n - size)` over any prefix |
| Metrics.GiniUniform | crossValidation.h:106-107 | with the corrected weights, songs recommended equally often give Gini 0 |
| Metrics.GiniSumIsPairDiffs | crossValidation.h:104-107 | with the corrected weights, the Gini sum equals the sum of `s[j] - s[i]` over all pairs `i < j` |
| Metrics.PairDiffsBound | crossValidation.h:102-107 | over ascending counts the pairwise differences add up to at least `last - first`, and never to less than 0 |
| Metrics.GiniConcentration | crossValidation.h:102-107 | with the corrected weights, Gini over ascending counts is never negative, and positive whenever the counts are not all equal |
| Metrics.GiniTermsAsWritten | crossValidation.h:106-107 | the prefix sum with the weights as written is the corrected prefix sum minus twice the prefix's total count |
| Metrics.GiniSumAsWritten | crossValidation.h:106-107 | the as-written Gini sum is the corrected sum minus twice the total number of recommendations |
| Metrics.GiniTermsAsWrittenUniform | crossValidation.h:106-107 | with the weights as written, equal counts sum to `c * n * (n - size - 2)` |
| Metrics.GiniAsWrittenUniform | crossValidation.h:106-107 | as written, n songs recommended c times each give `-2 * c * n`, not 0 |
| Metrics.GiniAsWrittenExample | crossValidation.h:106-107 | counts {2, 2, 2} give -12 as written and 0 corrected; counts {0, 0, 6} give 0 as written and 12 corrected |
| Metrics.CollectCounts | crossValidation.h:99-100 | the collected vector holds exactly the map's counts |
| Metrics.SortedCounts | crossValidation.h:99-102 | the counts collected from the map and sorted ascending are one fixed sequence, whatever order the map yields them in |
| Metrics.WeightedSum | crossValidation.h:104-107 | the loop with the weights `2 * i - size - 1` computes the as-written Gini sum of the sorted counts |
| Metrics.Gini | crossValidation.h:94-110 | as written: the scores are the map's counts in ascending order, the result is the as-written Gini sum, and it depends only on the multiset of counts |
| Metrics.WeightedSumCorrected | crossValidation.h:104-107 | the loop with the corrected weights `2 * (i + 1) - size - 1` |
| Metrics.GiniCorrected | crossValidation.h:94-110 | corrected: the same scores, with the corrected Gini sum, again a function of the multiset of counts. The sum is never negative, and positive as soon as the smallest count is below the largest |
| CrossValidation.Cleared | crossValidation.h:28-29 | clearing a block keeps the number of users |
| CrossValidation.ClearBlock | crossValidation.h:28-29 | users in the block become empty and all others are unchanged (also the clearing at lines 148-149) |
| CrossValidation.MoveBack | crossValidation.h:49 | `std::move` overwrites the block with the saved users and nothing else (also line 183) |
| CrossValidation.BlockSize | crossValidation.h:17 | `size / k` in unsigned division: `B * k <= size < B * k + k` |
| CrossValidation.EndOfBlocksPositive | crossValidation.h:22-23 | the fold loop runs exactly when the block size is positive (also lines 142-143) |
| CrossValidation.HeldOutError | crossValidation.h:33-45 | the squared error on one user's last song, predicted from the rest of its history; 0 exactly when the prediction equals the real count |
| CrossValidation.PredictHeldOutSongs | crossValidation.h:31-46 | the sum of squared errors of each user's last song, and each saved user has lost its last entry |
| CrossValidation.CrossValidationRMSE | crossValidation.h:13-56 | as written: the squared-error sum over the first block, predicted against the catalog with that block cleared. The block's users come back without their last song; all others are unchanged |
| CrossValidation.BlockReplaced | crossValidation.h:49 | moving the popped users back leaves every block user shortened and every other user intact |
| CrossValidation.PushBackHeldOut | crossValidation.h:33-35 | pushing each held-out entry back rebuilds the saved users |
| CrossValidation.PopPushRoundTrip | crossValidation.h:33-35 | `pop_back` then `push_back` of the same entry is the identity |
| CrossValidation.BlockRestored | crossValidation.h:48-49 | writing the saved block back over its cleared copy gives the original users |
| CrossValidation.CrossValidationRMSERestoring | crossValidation.h:13-56 | corrected: the same squared-error sum, and the users vector is exactly as before |
| CrossValidation.LastSongs | crossValidation.h:153-158 | the ground truth is `topN` songs |
| CrossValidation.PredictedPairs | crossValidation.h:162-166 | one (song, predicted score) pair per held-out song |
| CrossValidation.SplitRejoins | crossValidation.h:152-158 | the history without the last `topN` songs, followed by those songs, is the user |
| CrossValidation.RankOf | crossValidation.h:152-179 | one user's ranked list: `topN` entries, a permutation of the (song, prediction) pairs, sorted by predicted score descending |
| CrossValidation.RankOfProperties | crossValidation.h:151-179 | each user's ranked list has `topN` entries, is a permutation of the (song, prediction) pairs, is sorted by predicted score descending, and satisfies `0 <= dcg <= idcg` |
| CrossValidation.CollectLastSongs | crossValidation.h:153-158 | the loop collects the names of the last `topN` songs |
| CrossValidation.PairPredictions | crossValidation.h:162-166 | the loop pairs each held-out song with its prediction |
| CrossValidation.CountRecommended | crossValidation.h:175-177 | the loop tallies one recommendation per ranked song |
| CrossValidation.RankUser | crossValidation.h:151-179 | one held-out user: its ranking and the counter after tallying it |
| CrossValidation.RankAllAt | crossValidation.h:151-180 | the i-th ranking belongs to the i-th held-out user and has `topN` entries |
| CrossValidation.TotalTallyAll | crossValidation.h:175-177 | tallying rankings of `topN` songs adds `topN` per user to the total |
| CrossValidation.RecommendationTotal | crossValidation.h:135-177 | after the fold the counter totals exactly `topN` recommendations per evaluated user |
| CrossValidation.RankHeldOutUsers | crossValidation.h:151-180 | the loop over the held-out users produces every user's ranking in order, and the counter is the initial counter tallied with them |
| CrossValidation.RankFirstBlock | crossValidation.h:144-183 | clear the block, rank the saved users and move them back: the state after the fold |
| CrossValidation.BlockShortRestored | crossValidation.h:144-183 | clearing B users and moving back B - 1 leaves exactly user B - 1 empty |
| CrossValidation.CrossValidateNDCGandGini | crossValidation.h:117-191 | as written: the divisor is the block size. A zero block changes nothing and ranks nobody. Otherwise the first B - 1 users are ranked against the catalog with B users cleared, and afterwards the catalog equals the original except that user B - 1 is now empty. The counter is the all-zero catalog map tallied with every ranking, and the Gini sum is the as-written one over its counts |
| CrossValidation.CrossValidateNDCGandGiniRestoring | crossValidation.h:117-191 | corrected: all B block users are ranked, the catalog is exactly as before, the counter is as above, and the Gini sum uses the corrected weights |

## Left out

- Floating point.
  - `sqrt`, `log2` and the `double` divisions are left out: `sumCommonMarksMult / sqrt(...)`,
    `dcg / idcg`, `gini / (size - 1)`, `ndsg / oneBlockSize` and `sqrSum / oneBlockSize`.
  - The methods return the exact quantities these are applied to.
  - The cosine finish and the discount are parameters.
  - Division by zero and NaN are not modelled: a zero norm, a zero `idcg`, an empty block, or
    a single-song Gini where `--size` is 0.
- Similarity.CosBetweenTwoUsers: the cosine is `finish(sums)`, not the real quotient
  `common / sqrt(fstSq * sndSq)`.
- Similarity.CosBetweenTwoUsers: the `size_t` accumulators are unbounded, so overflow of
  `fstSumMarksSqr * sndSumMarksSqr` is not modelled.
- CrossValidation.PredictHeldOutSongs: `static_cast<int>` and `int` overflow of `curSum * curSum`
  are not modelled; the error is computed on unbounded integers.
- Metrics.Gini: `2 * i - size - 1` is computed in `size_t` in the source, so a negative weight
  wraps to a huge positive number. The as-written model (`GiniSumAsWritten`, `WeightedSum`)
  keeps the signed value. Either way uniform positive counts do not give 0.
- Prediction.NthElement: `nth_element` leaves the order within each side of the split
  unspecified. The model computes one such permutation (a selection sort of the first
  `topK` places) and promises only the permutation and the split.
- CrossValidation.RankOf: `std::sort` with `lhs.second > rhs.second` is not stable, so equal
  predicted scores may come out in any order. The model fixes one order, an insertion sort.
  `RankOf`'s own contract states only the permutation and the descending scores. The harness
  contracts (`RankUser`, `RankHeldOutUsers`, `RankFirstBlock` and both nDCG harnesses) equate
  their results with `RankOf`, which pins that one tie order. With three or more equal
  predictions and different real counts, the source can produce a different `dcg`.
- Parallelism: `__gnu_parallel::transform`, `for_each`, `sort` and `nth_element` are modelled
  sequentially.
  - The clears at crossValidation.h:28-29 and 148-149 write disjoint elements, so the schedule
    does not change their result.
  - The tie orders of `sort` and `nth_element` are covered by the RankOf and NthElement lines.
- Counter.InitialCounter: crossValidation.h:135-138 runs `timesRecommended[song] = 0` from
  several threads on one `std::unordered_map`, with no lock. Once the catalog is large enough
  for the parallel path, concurrent inserts are a data race, and the map can lose keys or be
  corrupted; the `reserve` at line 133 does not prevent this. The model assumes the sequential
  result: every song is a key with count 0. The race is not modelled, and the nDCG harnesses and
  Gini rely on that assumption.
- Console output (`cout`), `reserve` and the `USERS` / `K_USERS` constants are left out.
  `K_USERS` is only a default argument, and `topK` is a parameter.
- The neighbour predictors `predictFromNeighborsWithSongMark` and
  `predictSongsFromNearestNeighbors` are not part of this model. They are the `predict`
  parameter, which returns one score per requested song.
- The nDCG harness's running sum `ndsg` of `dcg / idcg` is left out (floating point). Each
  user's `dcg` and `idcg` are in its `UserRanking`.
- CrossValidation.CrossValidateNDCGandGini requires every evaluated user to have at least
  `topN` songs, because `end() - topN` is undefined behaviour otherwise. The RMSE harness
  likewise requires the block's users to be non-empty, because of `back()`.
- Prediction.PredictSongListening requires `1 <= topK <= |allUsersData|`, because
  `begin() + topK - 1` outside the vector is undefined behaviour. The code does not clamp `topK`
  to the catalog size.
- The commented-out `RMSEatLastUsers` and the rest of `crossValidation.h` after line 191 are
  not part of this model. Reading input, `main.cpp` and `runner.cpp` are not part of this
  model either.

## Findings

| source | as written | input that shows it | evidently intended | confidence | as-written member | corrected member |
|---|---|---|---|---|---|---|
| crossValidation.h:106-107 | weight `2 * i - size - 1` with 0-based `i` | counts {2, 2, 2}: sum -12, not 0. Counts {0, 0, 6}: sum 0, what an even spread should give | weight `2 * (i + 1) - size - 1`, so an even spread gives 0 and concentration gives a positive value | high (not executed) | Metrics.GiniAsWrittenExample | Metrics.GiniCorrected |
| crossValidation.h:33-35,49 | `pop_back` on the saved users, which are then moved back | any non-empty block: each block user comes back without its last song | the catalog is restored as it was ("restore user data", line 48) | high (not executed) | CrossValidation.CrossValidationRMSE | CrossValidation.CrossValidationRMSERestoring |
| crossValidation.h:144,148,183,190 | copy `oneBlockSize - 1` users, clear `oneBlockSize`, move back `oneBlockSize - 1`, divide by `oneBlockSize` | 10 users, k = 5: user 1 is never evaluated and stays empty afterwards | evaluate, clear and restore the same `oneBlockSize` users | high (not executed) | CrossValidation.CrossValidateNDCGandGini | CrossValidation.CrossValidateNDCGandGiniRestoring |
| recommender.cpp:79-107 | the merge stops when either list ends, so later songs' squares are never added to the norms | fst = {A:1, B:1}, snd = {A:1}: sums (1, 1, 1) give cosine 1 instead of 1/√2 | cosine over whole vectors: both full norms and the dot product | medium (not executed) | Similarity.PrefixNormExample | Similarity.CosBetweenTwoUsersFull |
