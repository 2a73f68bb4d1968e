/**
 The two cross-validation harnesses of crossValidation.h. Each one splits the
 user vector into k blocks of `size / k` users, clears the first block in place,
 predicts held-out data for the block's users against the cleared catalog,
 moves the users back and stops after that first block (`break`).

 The predictors they call are not defined in the modelled files; they are the
 parameter `predict`, which returns one prediction per requested song.
 */
module CrossValidation {
  import opened Songs
  import opened Sorting
  import opened Counter
  import opened Metrics

  /**
   predictFromNeighborsWithSongMark / predictSongsFromNearestNeighbors:
   (catalog, user, songs) -> one predicted score per song.
   */
  type Predictor = f: (seq<UserInfo>, UserInfo, seq<SongID>) -> seq<nat> | forall c, u, s :: |f(c, u, s)| == |s|
    witness (c: seq<UserInfo>, u: UserInfo, s: seq<SongID>) => seq(|s|, _ => 0)

  /** The catalog with users [lo, hi) cleared, everyone else as before. */
  function Cleared(data: seq<UserInfo>, lo: nat, hi: nat): (r: seq<UserInfo>)
    ensures |r| == |data|
  {
    seq(|data|, i requires 0 <= i < |data| => if lo <= i < hi then [] else data[i])
  }

  /** The `info.clear()` over a block (the parallel transform / for_each). */
  method ClearBlock(allUsersData: array<UserInfo>, lo: nat, hi: nat)
    requires lo <= hi <= allUsersData.Length
    modifies allUsersData
    ensures allUsersData[..] == Cleared(old(allUsersData[..]), lo, hi)
  {
    forall i | lo <= i < hi {
      allUsersData[i] := [];
    }
  }

  /** `std::move(data.begin(), data.end(), allUsersData.begin() + at)`. */
  method MoveBack(allUsersData: array<UserInfo>, data: seq<UserInfo>, at: nat)
    requires at + |data| <= allUsersData.Length
    modifies allUsersData
    ensures allUsersData[..] == old(allUsersData[..at]) + data + old(allUsersData[at + |data|..])
  {
    forall i | at <= i < at + |data| {
      allUsersData[i] := data[i - at];
    }
  }

  /** Moving popped users back over a cleared first block leaves everyone else as before. */
  lemma BlockReplaced(before: seq<UserInfo>, data: seq<UserInfo>, after: seq<UserInfo>, blockSize: nat)
    requires |data| == blockSize <= |before|
    requires forall i :: 0 <= i < blockSize ==> before[i] != [] && data[i] == DropLast(before[i])
    requires after == Cleared(before, 0, blockSize)[..0] + data + Cleared(before, 0, blockSize)[blockSize..]
    ensures |after| == |before|
    ensures forall i :: 0 <= i < blockSize ==> after[i] == DropLast(before[i])
    ensures forall i :: blockSize <= i < |before| ==> after[i] == before[i]
  {
  }

  /** Moving the untouched users back over a cleared first block restores the catalog. */
  lemma BlockRestored(before: seq<UserInfo>, after: seq<UserInfo>, blockSize: nat)
    requires blockSize <= |before|
    requires after == before[..blockSize] + Cleared(before, 0, blockSize)[blockSize..]
    ensures after == before
  {
    assert forall i :: 0 <= i < |before| ==> after[i] == before[i];
  }

  /** `oneBlockSize = size / k`: the number of users in each of the k blocks (size_t division). */
  function BlockSize(size: nat, k: nat): (b: nat)
    requires k >= 1
    ensures b <= size
    ensures b * k <= size < b * k + k
    decreases size
  {
    if size < k then 0
    else
      var rest := BlockSize(size - k, k);
      assert (rest + 1) * k == rest * k + k;
      rest + 1
  }

  /** `endOfBlocks = oneBlockSize * k` is positive exactly when there is a non-empty block. */
  lemma EndOfBlocksPositive(oneBlockSize: nat, k: nat)
    requires k >= 1
    ensures (0 < oneBlockSize * k) == (0 < oneBlockSize)
  {
    if 0 < oneBlockSize {
      assert oneBlockSize * k >= oneBlockSize * 1;
    }
  }

  // ---- crossValidationRMSE ----

  /** The squared error on one held-out user: its last song predicted from the rest of its history. */
  function HeldOutError(catalog: seq<UserInfo>, user: UserInfo, predict: Predictor): (e: nat)
    requires user != []
    ensures e == 0 <==> predict(catalog, DropLast(user), [Last(user).song])[0] == Last(user).score
  {
    var predictedValue := predict(catalog, DropLast(user), [Last(user).song]);
    var curSum := predictedValue[0] as int - Last(user).score as int;
    curSum * curSum
  }

  /** Sum of the held-out squared errors over the users of a block. */
  function SquaredErrors(catalog: seq<UserInfo>, users: seq<UserInfo>, predict: Predictor): nat
    requires forall i :: 0 <= i < |users| ==> users[i] != []
  {
    if users == [] then 0
    else SquaredErrors(catalog, DropLast(users), predict) + HeldOutError(catalog, Last(users), predict)
  }

  /**
   The inner loop of crossValidationRMSE: for every extracted user, pop its last
   entry, predict it and add the squared error. The pop_back acts on the
   extracted copy, which is what `remaining` returns.
   */
  method PredictHeldOutSongs(catalog: seq<UserInfo>, extractedData: seq<UserInfo>, predict: Predictor)
    returns (sqrSum: nat, remaining: seq<UserInfo>)
    requires forall i :: 0 <= i < |extractedData| ==> extractedData[i] != []
    ensures sqrSum == SquaredErrors(catalog, extractedData, predict)
    ensures |remaining| == |extractedData|
    ensures forall i :: 0 <= i < |remaining| ==> remaining[i] == DropLast(extractedData[i])
  {
    sqrSum := 0;
    remaining := extractedData;
    var idx := 0;
    while idx < |remaining|
      invariant 0 <= idx <= |remaining| == |extractedData|
      invariant sqrSum == SquaredErrors(catalog, extractedData[..idx], predict)
      invariant forall i :: 0 <= i < idx ==> remaining[i] == DropLast(extractedData[i])
      invariant forall i :: idx <= i < |remaining| ==> remaining[i] == extractedData[i]
    {
      var userToPredict := remaining[idx];
      var songToPredict := Last(userToPredict).song;
      var scoreToPredict := Last(userToPredict).score;
      userToPredict := DropLast(userToPredict);
      remaining := remaining[idx := userToPredict];
      var predictedValue := predict(catalog, userToPredict, [songToPredict]);
      var curSum := predictedValue[0] as int - scoreToPredict as int;
      assert DropLast(extractedData[..idx + 1]) == extractedData[..idx];
      sqrSum := sqrSum + curSum * curSum;
      idx := idx + 1;
    }
    assert extractedData[..idx] == extractedData;
  }

  /**
   crossValidationRMSE as written: returns the sum of squared errors over the
   first block (the sqrt of its mean is left out) and the block size. The block's
   users come back without their last entry; everyone else is untouched.
   */
  method CrossValidationRMSE(allUsersData: array<UserInfo>, k: nat, predict: Predictor)
    returns (sqrSum: nat, oneBlockSize: nat)
    requires k >= 1
    requires forall i :: 0 <= i < BlockSize(allUsersData.Length, k) ==> allUsersData[i] != []
    modifies allUsersData
    ensures oneBlockSize == BlockSize(allUsersData.Length, k)
    ensures sqrSum == SquaredErrors(Cleared(old(allUsersData[..]), 0, oneBlockSize),
                                    old(allUsersData[..oneBlockSize]), predict)
    ensures forall i :: 0 <= i < oneBlockSize ==> allUsersData[i] == DropLast(old(allUsersData[i]))
    ensures forall i :: oneBlockSize <= i < allUsersData.Length ==> allUsersData[i] == old(allUsersData[i])
  {
    var size := allUsersData.Length;
    oneBlockSize := BlockSize(size, k);
    sqrSum := 0;
    var endOfBlocks := oneBlockSize * k;
    EndOfBlocksPositive(oneBlockSize, k);
    var iter := 0;
    ghost var before := allUsersData[..];
    // The loop over blocks ends in an unconditional `break`: only the first block runs.
    if iter < endOfBlocks {
      var extractedData := allUsersData[iter..iter + oneBlockSize];
      assert extractedData == before[..oneBlockSize];
      ClearBlock(allUsersData, iter, iter + oneBlockSize);
      var catalog := allUsersData[..];
      assert catalog == Cleared(before, 0, oneBlockSize);
      sqrSum, extractedData := PredictHeldOutSongs(catalog, extractedData, predict);
      MoveBack(allUsersData, extractedData, iter);
      BlockReplaced(before, extractedData, allUsersData[..], oneBlockSize);
    }
  }

  /**
   The corrected harness: each popped entry is pushed back before the block is
   moved back (as the earlier, commented-out RMSEatLastUsers did), so the
   catalog is restored exactly.
   */
  method CrossValidationRMSERestoring(allUsersData: array<UserInfo>, k: nat, predict: Predictor)
    returns (sqrSum: nat, oneBlockSize: nat)
    requires k >= 1
    requires forall i :: 0 <= i < BlockSize(allUsersData.Length, k) ==> allUsersData[i] != []
    modifies allUsersData
    ensures oneBlockSize == BlockSize(allUsersData.Length, k)
    ensures sqrSum == SquaredErrors(Cleared(old(allUsersData[..]), 0, oneBlockSize),
                                    old(allUsersData[..oneBlockSize]), predict)
    ensures allUsersData[..] == old(allUsersData[..])
  {
    var size := allUsersData.Length;
    oneBlockSize := BlockSize(size, k);
    sqrSum := 0;
    var endOfBlocks := oneBlockSize * k;
    EndOfBlocksPositive(oneBlockSize, k);
    var iter := 0;
    ghost var before := allUsersData[..];
    if iter < endOfBlocks {
      var extractedData := allUsersData[iter..iter + oneBlockSize];
      assert extractedData == before[..oneBlockSize];
      ClearBlock(allUsersData, iter, iter + oneBlockSize);
      var catalog := allUsersData[..];
      assert catalog == Cleared(before, 0, oneBlockSize);
      var remaining;
      sqrSum, remaining := PredictHeldOutSongs(catalog, extractedData, predict);
      var restored := PushBackHeldOut(remaining, extractedData);
      MoveBack(allUsersData, restored, iter);
      assert catalog[..0] + restored == restored;
      assert allUsersData[..] == before[..oneBlockSize] + catalog[oneBlockSize..];
      BlockRestored(before, allUsersData[..], oneBlockSize);
    }
  }

  /** `userToPredict.push_back(realSongScore)` for every held-out user. */
  method PushBackHeldOut(remaining: seq<UserInfo>, extractedData: seq<UserInfo>) returns (restored: seq<UserInfo>)
    requires |remaining| == |extractedData|
    requires forall i :: 0 <= i < |remaining| ==> extractedData[i] != [] && remaining[i] == DropLast(extractedData[i])
    ensures restored == extractedData
  {
    restored := remaining;
    var idx := 0;
    while idx < |restored|
      invariant 0 <= idx <= |restored| == |extractedData|
      invariant forall i :: 0 <= i < idx ==> restored[i] == extractedData[i]
      invariant forall i :: idx <= i < |restored| ==> restored[i] == remaining[i]
    {
      PopPushRoundTrip(extractedData[idx]);
      restored := restored[idx := restored[idx] + [Last(extractedData[idx])]];
      idx := idx + 1;
    }
  }

  /** Popping the last entry and pushing it back gives the user back. */
  lemma PopPushRoundTrip(user: UserInfo)
    requires user != []
    ensures DropLast(user) + [Last(user)] == user
  {
  }

  // ---- crossValidateNDCGandGini ----

  /** One held-out user's result: the sorted (song, prediction) list and its DCG pair. */
  datatype UserRanking = UserRanking(ranked: seq<SongScore>, dcg: real, idcg: real)

  /** The sort key of the prediction lambda (`lhs.second > rhs.second`). */
  function ScoreKey(p: SongScore): int
  {
    p.score
  }

  /** The IDs of the user's last topN entries, in order. */
  function LastSongs(user: UserInfo, topN: nat): (songs: seq<SongID>)
    requires topN <= |user|
    ensures |songs| == topN
  {
    seq(topN, i requires 0 <= i < topN => user[|user| - topN + i].song)
  }

  /** The (song, prediction) pairs before sorting. */
  function PredictedPairs(lastUserSongs: seq<SongID>, predictTopN: seq<nat>): (r: seq<SongScore>)
    requires |predictTopN| == |lastUserSongs|
    ensures |r| == |lastUserSongs|
  {
    seq(|lastUserSongs|, i requires 0 <= i < |lastUserSongs| => SongScore(lastUserSongs[i], predictTopN[i]))
  }

  /** What the harness computes for one held-out user, stated without its loops. */
  function RankOf(catalog: seq<UserInfo>, user: UserInfo, topN: nat, predict: Predictor, weight: nat -> real)
    : (r: UserRanking)
    requires topN <= |user|
    ensures |r.ranked| == topN
    ensures multiset(r.ranked) == multiset(PredictedPairs(LastSongs(user, topN),
                                                          predict(catalog, user[..|user| - topN], LastSongs(user, topN))))
    ensures forall i, j :: 0 <= i < j < |r.ranked| ==> r.ranked[i].score >= r.ranked[j].score
  {
    var lastUserSongs := LastSongs(user, topN);
    var predictTopN := predict(catalog, user[..|user| - topN], lastUserSongs);
    var ranked := SortBy(PredictedPairs(lastUserSongs, predictTopN), ScoreKey);
    var relevances := Relevances(ranked, user);
    UserRanking(ranked, Dcg(relevances, weight), Dcg(SortDescending(relevances), weight))
  }

  /**
   The user split: the prefix the predictor sees followed by the held-out
   entries is the user again, and the held-out songs are those entries' IDs.
   */
  lemma SplitRejoins(user: UserInfo, topN: nat)
    requires topN <= |user|
    ensures user[..|user| - topN] + user[|user| - topN..] == user
    ensures forall i :: 0 <= i < topN ==> LastSongs(user, topN)[i] == user[|user| - topN..][i].song
  {
  }

  /**
   The recommendations of one user are its held-out songs with their
   predictions, reordered so that predictions never increase, and the DCG
   pair lies in [0, idcg] when the discounts never grow.
   */
  lemma RankOfProperties(catalog: seq<UserInfo>, user: UserInfo, topN: nat, predict: Predictor, weight: nat -> real)
    requires topN <= |user|
    ensures var r := RankOf(catalog, user, topN, predict, weight);
            var pairs := PredictedPairs(LastSongs(user, topN), predict(catalog, user[..|user| - topN], LastSongs(user, topN)));
            && |r.ranked| == topN
            && multiset(r.ranked) == multiset(pairs)
            && (forall i, j :: 0 <= i < j < |r.ranked| ==> r.ranked[i].score >= r.ranked[j].score)
            && (DiscountsDecrease(weight) ==> 0.0 <= r.dcg <= r.idcg)
  {
    var r := RankOf(catalog, user, topN, predict, weight);
    forall i, j | 0 <= i < j < |r.ranked|
      ensures r.ranked[i].score >= r.ranked[j].score
    {
      assert ScoreKey(r.ranked[i]) >= ScoreKey(r.ranked[j]);
    }
    if DiscountsDecrease(weight) {
      DcgNonNegative(Relevances(r.ranked, user), weight);
      IdealDcgIsMaximal(Relevances(r.ranked, user), weight);
    }
  }

  /** The counter after tallying every user's recommendations in order. */
  function TallyAll(m: Counts, rankings: seq<UserRanking>): Counts
  {
    if rankings == [] then m else Tally(TallyAll(m, DropLast(rankings)), Last(rankings).ranked)
  }

  /** Every user contributes topN recommendations, so the counter total is topN per user. */
  lemma {:induction false} TotalTallyAll(m: Counts, rankings: seq<UserRanking>, topN: nat)
    requires forall i :: 0 <= i < |rankings| ==> |rankings[i].ranked| == topN
    ensures Total(TallyAll(m, rankings)) == Total(m) + topN * |rankings|
  {
    if rankings != [] {
      TotalTallyAll(m, DropLast(rankings), topN);
      TotalTally(TallyAll(m, DropLast(rankings)), Last(rankings).ranked);
      assert topN * |rankings| == topN * (|rankings| - 1) + topN;
    }
  }

  /** The loop collecting `lastUserSongs`: the IDs of the last topN entries. */
  method CollectLastSongs(userToPredict: UserInfo, topN: nat) returns (lastUserSongs: seq<SongID>)
    requires topN <= |userToPredict|
    ensures lastUserSongs == LastSongs(userToPredict, topN)
  {
    var n := |userToPredict|;
    lastUserSongs := [];
    var iterToSong := n - topN;
    while iterToSong < n
      invariant n - topN <= iterToSong <= n
      invariant lastUserSongs == LastSongs(userToPredict, topN)[..iterToSong - (n - topN)]
    {
      lastUserSongs := lastUserSongs + [userToPredict[iterToSong].song];
      iterToSong := iterToSong + 1;
    }
  }

  /** The loop pairing each held-out song with its prediction. */
  method PairPredictions(lastUserSongs: seq<SongID>, predictTopN: seq<nat>) returns (predictedResults: seq<SongScore>)
    requires |predictTopN| == |lastUserSongs|
    ensures predictedResults == PredictedPairs(lastUserSongs, predictTopN)
  {
    predictedResults := [];
    var i := 0;
    while i < |lastUserSongs|
      invariant 0 <= i <= |lastUserSongs|
      invariant predictedResults == PredictedPairs(lastUserSongs, predictTopN)[..i]
    {
      predictedResults := predictedResults + [SongScore(lastUserSongs[i], predictTopN[i])];
      i := i + 1;
    }
  }

  /** The loop `++timesRecommended[songID]` over the recommended songs. */
  method CountRecommended(timesRecommended: Counts, predictedResults: seq<SongScore>) returns (counter: Counts)
    ensures counter == Tally(timesRecommended, predictedResults)
  {
    counter := timesRecommended;
    var j := 0;
    while j < |predictedResults|
      invariant 0 <= j <= |predictedResults|
      invariant counter == Tally(timesRecommended, predictedResults[..j])
    {
      assert DropLast(predictedResults[..j + 1]) == predictedResults[..j];
      counter := Increment(counter, predictedResults[j].song);
      j := j + 1;
    }
    assert predictedResults[..j] == predictedResults;
  }

  /**
   The body of the per-user loop: split the user, predict its last topN songs,
   sort the predictions descending, count them as recommended and compute nDCG's pair.
   */
  method RankUser(catalog: seq<UserInfo>, userToPredict: UserInfo, topN: nat, predict: Predictor,
                  weight: nat -> real, timesRecommended: Counts)
    returns (ranking: UserRanking, counter: Counts)
    requires topN <= |userToPredict|
    ensures ranking == RankOf(catalog, userToPredict, topN, predict, weight)
    ensures counter == Tally(timesRecommended, ranking.ranked)
  {
    var userWithoutLastN := userToPredict[..|userToPredict| - topN];
    var lastUserSongs := CollectLastSongs(userToPredict, topN);
    var predictTopN := predict(catalog, userWithoutLastN, lastUserSongs);
    var predictedResults := PairPredictions(lastUserSongs, predictTopN);
    predictedResults := SortBy(predictedResults, ScoreKey);
    counter := CountRecommended(timesRecommended, predictedResults);
    var dcg, idcg := NDCG(predictedResults, userToPredict, weight);
    ranking := UserRanking(predictedResults, dcg, idcg);
  }

  /** The rankings of a list of users, in order. */
  function RankAll(catalog: seq<UserInfo>, users: seq<UserInfo>, topN: nat, predict: Predictor, weight: nat -> real)
    : (r: seq<UserRanking>)
    requires forall i :: 0 <= i < |users| ==> topN <= |users[i]|
    ensures |r| == |users|
  {
    if users == [] then []
    else RankAll(catalog, DropLast(users), topN, predict, weight) + [RankOf(catalog, Last(users), topN, predict, weight)]
  }

  /** The i-th ranking is the i-th user's, and it holds topN recommendations. */
  lemma {:induction false} RankAllAt(catalog: seq<UserInfo>, users: seq<UserInfo>, topN: nat, predict: Predictor,
                                     weight: nat -> real, i: nat)
    requires forall j :: 0 <= j < |users| ==> topN <= |users[j]|
    requires i < |users|
    ensures RankAll(catalog, users, topN, predict, weight)[i] == RankOf(catalog, users[i], topN, predict, weight)
    ensures |RankAll(catalog, users, topN, predict, weight)[i].ranked| == topN
  {
    if i < |users| - 1 {
      RankAllAt(catalog, DropLast(users), topN, predict, weight, i);
    } else {
      RankOfProperties(catalog, users[i], topN, predict, weight);
    }
  }

  /**
   The harness counter: starting from every catalog song at 0, each evaluated
   user contributes exactly topN recommendations to the total.
   */
  lemma RecommendationTotal(songs: seq<SongID>, catalog: seq<UserInfo>, users: seq<UserInfo>, topN: nat,
                            predict: Predictor, weight: nat -> real)
    requires forall j :: 0 <= j < |users| ==> topN <= |users[j]|
    ensures Total(TallyAll(InitialCounter(songs), RankAll(catalog, users, topN, predict, weight))) == topN * |users|
  {
    TotalOfZeros(InitialCounter(songs));
    var m := InitialCounter(songs);
    var rankings := RankAll(catalog, users, topN, predict, weight);
    forall i | 0 <= i < |rankings|
      ensures |rankings[i].ranked| == topN
    {
      RankAllAt(catalog, users, topN, predict, weight, i);
    }
    TotalTallyAll(m, rankings, topN);
  }

  lemma RankAllStep(catalog: seq<UserInfo>, users: seq<UserInfo>, idx: nat, topN: nat, predict: Predictor,
                    weight: nat -> real)
    requires idx < |users|
    requires forall j :: 0 <= j < |users| ==> topN <= |users[j]|
    ensures RankAll(catalog, users[..idx + 1], topN, predict, weight)
            == RankAll(catalog, users[..idx], topN, predict, weight) + [RankOf(catalog, users[idx], topN, predict, weight)]
  {
    assert DropLast(users[..idx + 1]) == users[..idx];
  }

  lemma TallyAllStep(m: Counts, rankings: seq<UserRanking>, ranking: UserRanking)
    ensures TallyAll(m, rankings + [ranking]) == Tally(TallyAll(m, rankings), ranking.ranked)
  {
    assert DropLast(rankings + [ranking]) == rankings;
  }

  /** The loop over the test users: one ranking per user, in order, all tallied. */
  method RankHeldOutUsers(catalog: seq<UserInfo>, testData: seq<UserInfo>, topN: nat, predict: Predictor,
                          weight: nat -> real, timesRecommended: Counts)
    returns (rankings: seq<UserRanking>, counter: Counts)
    requires forall i :: 0 <= i < |testData| ==> topN <= |testData[i]|
    ensures rankings == RankAll(catalog, testData, topN, predict, weight)
    ensures counter == TallyAll(timesRecommended, rankings)
  {
    rankings := [];
    counter := timesRecommended;
    var idx := 0;
    while idx < |testData|
      invariant 0 <= idx <= |testData|
      invariant rankings == RankAll(catalog, testData[..idx], topN, predict, weight)
      invariant counter == TallyAll(timesRecommended, rankings)
    {
      var ranking;
      ranking, counter := RankUser(catalog, testData[idx], topN, predict, weight, counter);
      RankAllStep(catalog, testData, idx, topN, predict, weight);
      TallyAllStep(timesRecommended, rankings, ranking);
      rankings := rankings + [ranking];
      idx := idx + 1;
    }
    assert testData[..idx] == testData;
  }

  /**
   The block step of crossValidateNDCGandGini: copy the first `evaluated` users
   as test data, clear the first `blockSize` users, rank the test users against
   the cleared catalog and move them back over the start of the block.
   */
  method RankFirstBlock(allUsersData: array<UserInfo>, blockSize: nat, evaluated: nat, topN: nat, predict: Predictor,
                        weight: nat -> real, timesRecommended: Counts)
    returns (rankings: seq<UserRanking>, counter: Counts)
    requires evaluated <= blockSize <= allUsersData.Length
    requires forall i :: 0 <= i < evaluated ==> topN <= |allUsersData[i]|
    modifies allUsersData
    ensures rankings == RankAll(Cleared(old(allUsersData[..]), 0, blockSize), old(allUsersData[..evaluated]),
                                topN, predict, weight)
    ensures counter == TallyAll(timesRecommended, rankings)
    ensures allUsersData[..] == old(allUsersData[..evaluated]) + Cleared(old(allUsersData[..]), 0, blockSize)[evaluated..]
  {
    ghost var before := allUsersData[..];
    var testData := allUsersData[..evaluated];
    assert testData == before[..evaluated];
    ClearBlock(allUsersData, 0, blockSize);
    var catalog := allUsersData[..];
    assert catalog == Cleared(before, 0, blockSize);
    rankings, counter := RankHeldOutUsers(catalog, testData, topN, predict, weight, timesRecommended);
    MoveBack(allUsersData, testData, 0);
    assert catalog[..0] + testData == testData;
    assert allUsersData[..] == testData + catalog[evaluated..];
  }

  /**
   crossValidateNDCGandGini as written. The block is cleared whole, but only
   its first B - 1 users are copied, evaluated and moved back: the last user of
   the block comes back empty. `divisor` is the `oneBlockSize` the nDCG sum is
   divided by; the Gini sum is taken over the final counter with the weights
   as line 107 writes them.
   */
  method CrossValidateNDCGandGini(allUsersData: array<UserInfo>, songs: seq<SongID>, k: nat, topN: nat,
                                  predict: Predictor, weight: nat -> real)
    returns (rankings: seq<UserRanking>, divisor: nat, timesRecommended: Counts, gini: int)
    requires k >= 1
    requires forall i :: 0 <= i < BlockSize(allUsersData.Length, k) - 1 ==> topN <= |allUsersData[i]|
    modifies allUsersData
    ensures divisor == BlockSize(allUsersData.Length, k)
    ensures divisor == 0 ==> rankings == [] && allUsersData[..] == old(allUsersData[..])
    ensures divisor > 0 ==> rankings == RankAll(Cleared(old(allUsersData[..]), 0, divisor),
                                                old(allUsersData[..divisor - 1]), topN, predict, weight)
    ensures divisor > 0 ==> allUsersData[..] == old(allUsersData[..])[divisor - 1 := []]
    ensures timesRecommended == TallyAll(InitialCounter(songs), rankings)
    ensures gini == GiniOfAsWritten(CountsOf(timesRecommended))
  {
    var size := allUsersData.Length;
    var oneBlockSize := BlockSize(size, k);
    divisor := oneBlockSize;
    timesRecommended := InitialCounter(songs);
    rankings := [];
    var endOfBlocks := oneBlockSize * k;
    EndOfBlocksPositive(oneBlockSize, k);
    var iter := 0;
    ghost var before := allUsersData[..];
    // The loop over blocks ends in an unconditional `break`: only the first block runs.
    if iter < endOfBlocks {
      rankings, timesRecommended := RankFirstBlock(allUsersData, oneBlockSize, oneBlockSize - 1, topN, predict, weight, timesRecommended);
      BlockShortRestored(before, allUsersData[..], oneBlockSize);
    }
    var scores;
    gini, scores := Gini(timesRecommended);
  }

  /** Moving back all but the last user of a cleared first block leaves only that user empty. */
  lemma BlockShortRestored(before: seq<UserInfo>, after: seq<UserInfo>, blockSize: nat)
    requires 0 < blockSize <= |before|
    requires after == before[..blockSize - 1] + Cleared(before, 0, blockSize)[blockSize - 1..]
    ensures after == before[blockSize - 1 := []]
  {
    assert forall i :: 0 <= i < |before| ==> after[i] == before[blockSize - 1 := []][i];
  }

  /**
   The corrected harness: all B users of the block are copied, evaluated and
   moved back, so the catalog is restored exactly and the nDCG sum has B terms;
   the Gini sum uses the corrected weights.
   */
  method CrossValidateNDCGandGiniRestoring(allUsersData: array<UserInfo>, songs: seq<SongID>, k: nat, topN: nat,
                                           predict: Predictor, weight: nat -> real)
    returns (rankings: seq<UserRanking>, divisor: nat, timesRecommended: Counts, gini: int)
    requires k >= 1
    requires forall i :: 0 <= i < BlockSize(allUsersData.Length, k) ==> topN <= |allUsersData[i]|
    modifies allUsersData
    ensures divisor == BlockSize(allUsersData.Length, k)
    ensures rankings == RankAll(Cleared(old(allUsersData[..]), 0, divisor),
                                old(allUsersData[..divisor]), topN, predict, weight)
    ensures allUsersData[..] == old(allUsersData[..])
    ensures timesRecommended == TallyAll(InitialCounter(songs), rankings)
    ensures gini == GiniOf(CountsOf(timesRecommended))
  {
    var size := allUsersData.Length;
    var oneBlockSize := BlockSize(size, k);
    divisor := oneBlockSize;
    timesRecommended := InitialCounter(songs);
    rankings := [];
    var endOfBlocks := oneBlockSize * k;
    EndOfBlocksPositive(oneBlockSize, k);
    var iter := 0;
    ghost var before := allUsersData[..];
    // The loop over blocks ends in an unconditional `break`: only the first block runs.
    if iter < endOfBlocks {
      rankings, timesRecommended := RankFirstBlock(allUsersData, oneBlockSize, oneBlockSize, topN, predict, weight, timesRecommended);
      BlockRestored(before, allUsersData[..], oneBlockSize);
    }
    var scores;
    gini, scores := GiniCorrected(timesRecommended);
  }
}
