/**
 predictSongListening (recommender.cpp): score every user of the catalog
 against the target user, move the top-K neighbours to the front of the
 candidate vector with nth_element, and average their marks for the song.
 */
module Prediction {
  import opened Songs
  import opened Similarity

  /** A (cosine, catalog index) pair: the source's CosValueIndex. */
  datatype CosValueIndex = CosValueIndex(cos: real, index: nat)

  /** The candidate's user has a mark for `song` (the comparator's `find_if != end`). */
  predicate HasSong(catalog: seq<UserInfo>, c: CosValueIndex, song: SongID)
  {
    c.index < |catalog| && Contains(catalog[c.index], song)
  }

  /**
   The comparator `cosComparer`: a candidate whose user has the song comes
   before one whose user has not; otherwise the larger cosine comes first.
   */
  predicate Precedes(catalog: seq<UserInfo>, song: SongID, lhs: CosValueIndex, rhs: CosValueIndex)
    ensures HasSong(catalog, lhs, song) && !HasSong(catalog, rhs, song) ==> Precedes(catalog, song, lhs, rhs)
    ensures Precedes(catalog, song, lhs, rhs) ==> HasSong(catalog, lhs, song) || !HasSong(catalog, rhs, song)
    ensures Precedes(catalog, song, lhs, rhs) && HasSong(catalog, rhs, song) ==> lhs.cos > rhs.cos
  {
    if HasSong(catalog, lhs, song) != HasSong(catalog, rhs, song) then HasSong(catalog, lhs, song)
    else lhs.cos > rhs.cos
  }

  lemma PrecedesIrreflexive(catalog: seq<UserInfo>, song: SongID, c: CosValueIndex)
    ensures !Precedes(catalog, song, c, c)
  {
  }

  lemma PrecedesTransitive(catalog: seq<UserInfo>, song: SongID, a: CosValueIndex, b: CosValueIndex, c: CosValueIndex)
    requires Precedes(catalog, song, a, b) && Precedes(catalog, song, b, c)
    ensures Precedes(catalog, song, a, c)
  {
  }

  /** Between two candidates that both have the song, or both lack it, the larger cosine comes first. */
  lemma PrecedesWithinGroup(catalog: seq<UserInfo>, song: SongID, lhs: CosValueIndex, rhs: CosValueIndex)
    requires HasSong(catalog, lhs, song) == HasSong(catalog, rhs, song)
    ensures Precedes(catalog, song, lhs, rhs) <==> lhs.cos > rhs.cos
  {
  }

  /** Neither candidate precedes the other exactly when both agree on the song and on the cosine. */
  lemma PrecedesIncomparable(catalog: seq<UserInfo>, song: SongID, a: CosValueIndex, b: CosValueIndex)
    ensures !Precedes(catalog, song, a, b) && !Precedes(catalog, song, b, a) <==>
            HasSong(catalog, a, song) == HasSong(catalog, b, song) && a.cos == b.cos
  {
  }

  /**
   Incomparability is transitive, which with irreflexivity and transitivity
   makes the comparator the strict weak order nth_element requires.
   */
  lemma IncomparableTransitive(catalog: seq<UserInfo>, song: SongID, a: CosValueIndex, b: CosValueIndex, c: CosValueIndex)
    requires !Precedes(catalog, song, a, b) && !Precedes(catalog, song, b, a)
    requires !Precedes(catalog, song, b, c) && !Precedes(catalog, song, c, b)
    ensures !Precedes(catalog, song, a, c) && !Precedes(catalog, song, c, a)
  {
    PrecedesIncomparable(catalog, song, a, b);
    PrecedesIncomparable(catalog, song, b, c);
    PrecedesIncomparable(catalog, song, a, c);
  }

  /** Entry j of the candidate vector names catalog user j. */
  predicate Indexed(cs: seq<CosValueIndex>, n: nat)
  {
    |cs| == n && forall j :: 0 <= j < |cs| ==> cs[j].index == j
  }

  /**
   The candidate vector the first loop builds: entry j pairs catalog user j
   with cosBetweenTwoUsers(userData, user j), the merge's prefix-norm cosine.
   */
  function Candidates(catalog: seq<UserInfo>, user: UserInfo, finish: CosSums -> real): (r: seq<CosValueIndex>)
    ensures |r| == |catalog|
    ensures forall j :: 0 <= j < |r| ==> r[j].index == j && r[j].cos == CosValue(user, catalog[j], finish)
  {
    seq(|catalog|, j requires 0 <= j < |catalog| => CosValueIndex(CosValue(user, catalog[j], finish), j))
  }

  /** The candidate vector with the corrected, whole-vector cosine. */
  function CandidatesFull(catalog: seq<UserInfo>, user: UserInfo, finish: CosSums -> real): (r: seq<CosValueIndex>)
    ensures |r| == |catalog|
    ensures forall j :: 0 <= j < |r| ==> r[j].index == j && r[j].cos == FullCosValue(user, catalog[j], finish)
  {
    seq(|catalog|, j requires 0 <= j < |catalog| => CosValueIndex(FullCosValue(user, catalog[j], finish), j))
  }

  /** The mark the candidate's user gave `song`, 0 when absent (or the index is out of range). */
  function Mark(catalog: seq<UserInfo>, c: CosValueIndex, song: SongID): nat
  {
    if c.index < |catalog| then ScoreOf(catalog[c.index], song) else 0
  }

  /** Sum of the candidates' marks for `song`. */
  function SumOfMarks(catalog: seq<UserInfo>, rs: seq<CosValueIndex>, song: SongID): nat
  {
    if rs == [] then 0 else SumOfMarks(catalog, DropLast(rs), song) + Mark(catalog, Last(rs), song)
  }

  /** The largest mark any catalog user gave `song`. */
  function MaxMark(catalog: seq<UserInfo>, song: SongID): nat
  {
    if catalog == [] then 0
    else if ScoreOf(Last(catalog), song) > MaxMark(DropLast(catalog), song) then ScoreOf(Last(catalog), song)
    else MaxMark(DropLast(catalog), song)
  }

  /**
   `nth_element(a.begin(), a.begin() + nth, a.end(), cosComparer)`, done as a
   selection of the first nth + 1 positions. The contract is the standard's
   promise: a permutation in which nothing after position nth comes before
   anything up to it, and nothing before nth comes after the element at nth.
   */
  method NthElement(a: array<CosValueIndex>, nth: nat, catalog: seq<UserInfo>, song: SongID)
    requires nth < a.Length
    modifies a
    ensures multiset(a[..]) == multiset(old(a[..]))
    ensures forall p, q :: 0 <= p < q < a.Length && p <= nth <= q ==> !Precedes(catalog, song, a[q], a[p])
  {
    var k := 0;
    while k <= nth
      invariant 0 <= k <= nth + 1
      invariant multiset(a[..]) == multiset(old(a[..]))
      invariant Selected(a[..], k, catalog, song)
    {
      var m := SelectFirst(a, k, catalog, song);
      ghost var s := a[..];
      a[k], a[m] := a[m], a[k];
      assert a[..] == s[k := s[m]][m := s[k]];
      SwapSelects(s, k, m, catalog, song);
      k := k + 1;
    }
    assert Selected(a[..], nth + 1, catalog, song);
  }

  /** The first k places hold, in order, entries no later entry precedes. */
  ghost predicate Selected(s: seq<CosValueIndex>, k: nat, catalog: seq<UserInfo>, song: SongID)
  {
    forall p, q :: 0 <= p < k && p < q < |s| ==> !Precedes(catalog, song, s[q], s[p])
  }

  /** Swapping a first-ranked entry of the rest into place k extends the selected prefix by one. */
  lemma SwapSelects(s: seq<CosValueIndex>, k: nat, m: nat, catalog: seq<UserInfo>, song: SongID)
    requires k <= m < |s| && Selected(s, k, catalog, song)
    requires forall t :: k <= t < |s| ==> !Precedes(catalog, song, s[t], s[m])
    ensures Selected(s[k := s[m]][m := s[k]], k + 1, catalog, song)
    ensures multiset(s[k := s[m]][m := s[k]]) == multiset(s)
  {
    var r := s[k := s[m]][m := s[k]];
    forall p, q | 0 <= p < k + 1 && p < q < |r|
      ensures !Precedes(catalog, song, r[q], r[p])
    {
      var q' := if q == k then m else if q == m then k else q;
      assert r[q] == s[q'];
      assert q' == q || k <= q';
    }
  }

  method SelectFirst(a: array<CosValueIndex>, k: nat, catalog: seq<UserInfo>, song: SongID) returns (m: nat)
    requires k < a.Length
    ensures k <= m < a.Length
    ensures forall t :: k <= t < a.Length ==> !Precedes(catalog, song, a[t], a[m])
  {
    m := k;
    var t := k + 1;
    while t < a.Length
      invariant k <= m < t <= a.Length
      invariant forall t' :: k <= t' < t ==> !Precedes(catalog, song, a[t'], a[m])
    {
      if Precedes(catalog, song, a[t], a[m]) {
        forall t' | k <= t' < t
          ensures !Precedes(catalog, song, a[t'], a[t])
        {
          if Precedes(catalog, song, a[t'], a[t]) {
            PrecedesTransitive(catalog, song, a[t'], a[t], a[m]);
          }
        }
        m := t;
      }
      t := t + 1;
    }
  }

  /**
   predictSongListening: the integer mean (size_t division) of the song's marks
   over the top-K candidates. `ranking` is the candidate vector after nth_element.
   */
  method PredictSongListening(allUsersData: seq<UserInfo>, userData: UserInfo, songID: SongID, topK: nat,
                              finish: CosSums -> real)
    returns (prediction: nat, ranking: seq<CosValueIndex>)
    requires Sorted(userData) && forall j :: 0 <= j < |allUsersData| ==> Sorted(allUsersData[j])
    requires 1 <= topK <= |allUsersData|
    ensures multiset(ranking) == multiset(Candidates(allUsersData, userData, finish))
    ensures |ranking| == |allUsersData|
    ensures forall p, q :: 0 <= p < q < |ranking| && p <= topK - 1 <= q ==>
              !Precedes(allUsersData, songID, ranking[q], ranking[p])
    ensures forall p, q :: 0 <= p < topK <= q < |ranking| && HasSong(allUsersData, ranking[q], songID) ==>
              HasSong(allUsersData, ranking[p], songID)
    ensures prediction == SumOfMarks(allUsersData, ranking[..topK], songID) / topK
    ensures prediction <= MaxMark(allUsersData, songID)
    ensures (forall u :: u in allUsersData ==> !Contains(u, songID)) ==> prediction == 0
    ensures forall p, q :: 0 <= p < q < |ranking| ==> ranking[p].index != ranking[q].index
  {
    var cosResult := ScoreCatalog(allUsersData, userData, finish);
    prediction, ranking := RankAndAverage(allUsersData, cosResult, songID, topK);
  }

  /** predictSongListening with neighbours ranked by the corrected whole-vector cosine. */
  method PredictSongListeningFull(allUsersData: seq<UserInfo>, userData: UserInfo, songID: SongID, topK: nat,
                                  finish: CosSums -> real)
    returns (prediction: nat, ranking: seq<CosValueIndex>)
    requires Sorted(userData) && forall j :: 0 <= j < |allUsersData| ==> Sorted(allUsersData[j])
    requires 1 <= topK <= |allUsersData|
    ensures multiset(ranking) == multiset(CandidatesFull(allUsersData, userData, finish))
    ensures |ranking| == |allUsersData|
    ensures forall p, q :: 0 <= p < q < |ranking| && p <= topK - 1 <= q ==>
              !Precedes(allUsersData, songID, ranking[q], ranking[p])
    ensures forall p, q :: 0 <= p < topK <= q < |ranking| && HasSong(allUsersData, ranking[q], songID) ==>
              HasSong(allUsersData, ranking[p], songID)
    ensures prediction == SumOfMarks(allUsersData, ranking[..topK], songID) / topK
    ensures prediction <= MaxMark(allUsersData, songID)
    ensures (forall u :: u in allUsersData ==> !Contains(u, songID)) ==> prediction == 0
    ensures forall p, q :: 0 <= p < q < |ranking| ==> ranking[p].index != ranking[q].index
  {
    var cosResult := ScoreCatalogFull(allUsersData, userData, finish);
    prediction, ranking := RankAndAverage(allUsersData, cosResult, songID, topK);
  }

  /**
   The part of predictSongListening after the candidate vector is built:
   nth_element at topK - 1, then the integer mean of the top-K marks.
   */
  method RankAndAverage(allUsersData: seq<UserInfo>, cosResult: array<CosValueIndex>, songID: SongID, topK: nat)
    returns (prediction: nat, ranking: seq<CosValueIndex>)
    requires Indexed(cosResult[..], |allUsersData|)
    requires 1 <= topK <= |allUsersData|
    modifies cosResult
    ensures multiset(ranking) == multiset(old(cosResult[..]))
    ensures |ranking| == |allUsersData|
    ensures forall p, q :: 0 <= p < q < |ranking| && p <= topK - 1 <= q ==>
              !Precedes(allUsersData, songID, ranking[q], ranking[p])
    ensures forall p, q :: 0 <= p < topK <= q < |ranking| && HasSong(allUsersData, ranking[q], songID) ==>
              HasSong(allUsersData, ranking[p], songID)
    ensures prediction == SumOfMarks(allUsersData, ranking[..topK], songID) / topK
    ensures prediction <= MaxMark(allUsersData, songID)
    ensures (forall u :: u in allUsersData ==> !Contains(u, songID)) ==> prediction == 0
    ensures forall p, q :: 0 <= p < q < |ranking| ==> ranking[p].index != ranking[q].index
  {
    ghost var candidates := cosResult[..];
    NthElement(cosResult, topK - 1, allUsersData, songID);
    ranking := cosResult[..];
    TopHaveSong(allUsersData, songID, ranking, topK);
    RankingIndices(allUsersData, candidates, ranking);
    RankingDistinct(allUsersData, candidates, ranking);
    var sumOfMarks := SumTopMarks(allUsersData, ranking, songID, topK);
    prediction := Quotient(sumOfMarks, topK);
    PredictionBound(allUsersData, ranking[..topK], songID);
  }

  /** The first loop of predictSongListening: one cosine per catalog user, in catalog order. */
  method ScoreCatalog(allUsersData: seq<UserInfo>, userData: UserInfo, finish: CosSums -> real)
    returns (cosResult: array<CosValueIndex>)
    requires Sorted(userData) && forall j :: 0 <= j < |allUsersData| ==> Sorted(allUsersData[j])
    ensures fresh(cosResult)
    ensures cosResult[..] == Candidates(allUsersData, userData, finish)
  {
    cosResult := new CosValueIndex[|allUsersData|];
    var curIndex := 0;
    while curIndex < |allUsersData|
      invariant 0 <= curIndex <= |allUsersData|
      invariant cosResult[..curIndex] == Candidates(allUsersData, userData, finish)[..curIndex]
    {
      var c, sums;
      ghost var steps;
      c, sums, steps := CosBetweenTwoUsers(userData, allUsersData[curIndex], finish);
      cosResult[curIndex] := CosValueIndex(c, curIndex);
      curIndex := curIndex + 1;
    }
    assert cosResult[..] == cosResult[..curIndex];
    assert Candidates(allUsersData, userData, finish)[..curIndex] == Candidates(allUsersData, userData, finish);
  }

  /** The first loop with the corrected similarity. */
  method ScoreCatalogFull(allUsersData: seq<UserInfo>, userData: UserInfo, finish: CosSums -> real)
    returns (cosResult: array<CosValueIndex>)
    requires Sorted(userData) && forall j :: 0 <= j < |allUsersData| ==> Sorted(allUsersData[j])
    ensures fresh(cosResult)
    ensures cosResult[..] == CandidatesFull(allUsersData, userData, finish)
  {
    cosResult := new CosValueIndex[|allUsersData|];
    var curIndex := 0;
    while curIndex < |allUsersData|
      invariant 0 <= curIndex <= |allUsersData|
      invariant cosResult[..curIndex] == CandidatesFull(allUsersData, userData, finish)[..curIndex]
    {
      var c, sums := CosBetweenTwoUsersFull(userData, allUsersData[curIndex], finish);
      cosResult[curIndex] := CosValueIndex(c, curIndex);
      curIndex := curIndex + 1;
    }
    assert cosResult[..] == cosResult[..curIndex];
    assert CandidatesFull(allUsersData, userData, finish)[..curIndex] == CandidatesFull(allUsersData, userData, finish);
  }

  /** The second loop of predictSongListening: the top-K candidates' marks, absent ones counting 0. */
  method SumTopMarks(allUsersData: seq<UserInfo>, ranking: seq<CosValueIndex>, songID: SongID, topK: nat)
    returns (sumOfMarks: nat)
    requires topK <= |ranking|
    requires forall p :: 0 <= p < |ranking| ==> ranking[p].index < |allUsersData|
    ensures sumOfMarks == SumOfMarks(allUsersData, ranking[..topK], songID)
  {
    sumOfMarks := 0;
    var i := 0;
    while i < topK
      invariant 0 <= i <= topK
      invariant sumOfMarks == SumOfMarks(allUsersData, ranking[..i], songID)
    {
      var user := allUsersData[ranking[i].index];
      SumOfMarksStep(allUsersData, ranking, i, songID);
      if Contains(user, songID) {
        sumOfMarks := sumOfMarks + ScoreOf(user, songID);
      } else {
        ScoreOfAbsent(user, songID);
      }
      i := i + 1;
    }
  }

  /** size_t division, rounding down. */
  function Quotient(s: nat, k: nat): (q: nat)
    requires k >= 1
    ensures q * k <= s < q * k + k
  {
    s / k
  }

  // ---- Lemmas ----

  lemma SumOfMarksStep(catalog: seq<UserInfo>, rs: seq<CosValueIndex>, i: nat, song: SongID)
    requires i < |rs|
    ensures SumOfMarks(catalog, rs[..i + 1], song) == SumOfMarks(catalog, rs[..i], song) + Mark(catalog, rs[i], song)
  {
    assert DropLast(rs[..i + 1]) == rs[..i];
  }

  /**
   With the comparator putting holders of the song first, a candidate after
   the top block holds the song only if every candidate in the block does.
   */
  lemma TopHaveSong(catalog: seq<UserInfo>, song: SongID, ranking: seq<CosValueIndex>, topK: nat)
    requires 1 <= topK <= |ranking|
    requires forall p, q :: 0 <= p < q < |ranking| && p <= topK - 1 <= q ==> !Precedes(catalog, song, ranking[q], ranking[p])
    ensures forall p, q :: 0 <= p < topK <= q < |ranking| && HasSong(catalog, ranking[q], song) ==>
              HasSong(catalog, ranking[p], song)
  {
  }

  /** The integer mean of K marks is at most the largest mark, and 0 when nobody has the song. */
  lemma PredictionBound(catalog: seq<UserInfo>, top: seq<CosValueIndex>, song: SongID)
    requires |top| >= 1
    ensures SumOfMarks(catalog, top, song) / |top| <= MaxMark(catalog, song)
    ensures (forall u :: u in catalog ==> !Contains(u, song)) ==> SumOfMarks(catalog, top, song) / |top| == 0
  {
    SumOfMarksBound(catalog, top, song);
    var nobody := forall u :: u in catalog ==> !Contains(u, song);
    if nobody {
      NoMarks(catalog, song);
    }
    MeanBound(SumOfMarks(catalog, top, song), |top|, MaxMark(catalog, song), nobody);
  }

  /** Every candidate in a permutation of the candidate vector names a catalog user. */
  lemma RankingIndices(catalog: seq<UserInfo>, cs: seq<CosValueIndex>, ranking: seq<CosValueIndex>)
    requires Indexed(cs, |catalog|) && multiset(ranking) == multiset(cs)
    ensures forall p :: 0 <= p < |ranking| ==> ranking[p].index < |catalog|
  {
    forall p | 0 <= p < |ranking|
      ensures ranking[p].index < |catalog|
    {
      assert ranking[p] in multiset(cs);
      var j :| 0 <= j < |cs| && cs[j] == ranking[p];
    }
  }

  lemma MarkAtMostMax(catalog: seq<UserInfo>, c: CosValueIndex, song: SongID)
    ensures Mark(catalog, c, song) <= MaxMark(catalog, song)
    decreases |catalog|
  {
    if c.index < |catalog| && c.index < |catalog| - 1 {
      assert DropLast(catalog)[c.index] == catalog[c.index];
      MarkAtMostMax(DropLast(catalog), c, song);
    }
  }

  /** K marks add up to at most K times the largest mark. */
  lemma {:induction false} SumOfMarksBound(catalog: seq<UserInfo>, rs: seq<CosValueIndex>, song: SongID)
    ensures SumOfMarks(catalog, rs, song) <= |rs| * MaxMark(catalog, song)
  {
    if rs != [] {
      var m := MaxMark(catalog, song);
      SumOfMarksBound(catalog, DropLast(rs), song);
      MarkAtMostMax(catalog, Last(rs), song);
      assert |rs| * m == (|rs| - 1) * m + m;
    }
  }

  /** The mean of K values each at most m is at most m, and 0 when m is. */
  lemma MeanBound(s: nat, k: nat, m: nat, nobody: bool)
    requires 1 <= k && s <= k * m && (nobody ==> m == 0)
    ensures s / k <= m && (nobody ==> s / k == 0)
  {
    DivBound(s, k, m);
  }

  lemma DivBound(s: nat, k: nat, m: nat)
    requires 1 <= k && s <= k * m
    ensures s / k <= m
  {
    assert k * (s / k) <= s <= k * m;
    CancelLe(k, s / k, m);
  }

  lemma CancelLe(k: nat, d: nat, m: nat)
    requires 1 <= k && k * d <= k * m
    ensures d <= m
  {
  }

  lemma {:induction false} NoMarks(catalog: seq<UserInfo>, song: SongID)
    requires forall u :: u in catalog ==> !Contains(u, song)
    ensures MaxMark(catalog, song) == 0
  {
    if catalog != [] {
      assert Last(catalog) in catalog;
      ScoreOfAbsent(Last(catalog), song);
      assert forall u :: u in DropLast(catalog) ==> u in catalog;
      NoMarks(DropLast(catalog), song);
    }
  }

  lemma {:induction false} CountAtMostOne(s: seq<CosValueIndex>, x: CosValueIndex)
    requires forall p, q :: 0 <= p < q < |s| ==> s[p].index != s[q].index
    ensures multiset(s)[x] <= 1
  {
    if s != [] {
      assert s == [s[0]] + s[1..];
      CountAtMostOne(s[1..], x);
      if x == s[0] {
        assert x !in s[1..];
      }
    }
  }

  /**
   The top-K neighbours are K different catalog users: a permutation of the
   candidate vector repeats no index.
   */
  lemma RankingDistinct(catalog: seq<UserInfo>, cs: seq<CosValueIndex>, ranking: seq<CosValueIndex>)
    requires Indexed(cs, |catalog|) && multiset(ranking) == multiset(cs)
    ensures forall p, q :: 0 <= p < q < |ranking| ==> ranking[p].index != ranking[q].index
  {
    forall p, q | 0 <= p < q < |ranking|
      ensures ranking[p].index != ranking[q].index
    {
      if ranking[p].index == ranking[q].index {
        assert ranking[p] in multiset(cs) && ranking[q] in multiset(cs);
        var j :| 0 <= j < |cs| && cs[j] == ranking[p];
        var j' :| 0 <= j' < |cs| && cs[j'] == ranking[q];
        assert ranking[p] == ranking[q];
        assert ranking == ranking[..q] + ranking[q..];
        assert ranking[p] in multiset(ranking[..q]) && ranking[q] in multiset(ranking[q..]);
        assert multiset(ranking)[ranking[p]] >= 2;
        CountAtMostOne(cs, ranking[p]);
        assert false;
      }
    }
  }
}
