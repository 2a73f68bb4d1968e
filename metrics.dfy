/**
 The ranking metrics of crossValidation.h: DCG, nDCG and Gini.
 The discount `1 / log2(i + 1)` is a parameter `weight`; the final floating-point
 divisions (`dcg / idcg`, `gini / (size - 1)`) are left to the caller.
 */
module Metrics {
  import opened Songs
  import opened Sorting
  import opened Counter

  // ---- DCG ----

  /** The factor of position i: the first relevance is taken as is, later ones are discounted. */
  function Discount(weight: nat -> real, i: nat): real
  {
    if i == 0 then 1.0 else weight(i)
  }

  /** The contribution of relevance r at position i. */
  function Gain(r: nat, weight: nat -> real, i: nat): real
  {
    r as real * Discount(weight, i)
  }

  /** DCG of a relevance list: the sum of the gains, position by position. */
  function Dcg(rel: seq<nat>, weight: nat -> real): real
  {
    if rel == [] then 0.0 else Dcg(DropLast(rel), weight) + Gain(Last(rel), weight, |rel| - 1)
  }

  /** DCG, accumulated over the list in order. */
  method DCG(relevances: seq<nat>, weight: nat -> real) returns (dcg: real)
    ensures dcg == Dcg(relevances, weight)
    ensures relevances == [] ==> dcg == 0.0
    ensures |relevances| == 1 ==> dcg == relevances[0] as real
  {
    var k := |relevances|;
    if k == 0 {
      return 0.0;
    }
    dcg := relevances[0] as real;
    assert DropLast(relevances[..1]) == [];
    var i := 1;
    while i < k
      invariant 1 <= i <= k
      invariant dcg == Dcg(relevances[..i], weight)
    {
      assert DropLast(relevances[..i + 1]) == relevances[..i];
      dcg := dcg + relevances[i] as real * weight(i);
      i := i + 1;
    }
    assert relevances[..k] == relevances;
  }

  /** The discounts are 1 at the top and never grow, as 1/log2(i + 1) does for i >= 1. */
  ghost predicate DiscountsDecrease(weight: nat -> real)
  {
    forall i: nat, j: nat :: i <= j ==> 0.0 <= Discount(weight, j) <= Discount(weight, i)
  }

  /** Relevances weighted from position `o` on, summed from the front. */
  function DcgFrom(rel: seq<nat>, weight: nat -> real, o: nat): real
  {
    if rel == [] then 0.0 else Gain(rel[0], weight, o) + DcgFrom(rel[1..], weight, o + 1)
  }

  lemma {:induction false} DcgFromAppend(rel: seq<nat>, x: nat, weight: nat -> real, o: nat)
    ensures DcgFrom(rel + [x], weight, o) == DcgFrom(rel, weight, o) + Gain(x, weight, o + |rel|)
  {
    if rel != [] {
      assert (rel + [x])[1..] == rel[1..] + [x];
      DcgFromAppend(rel[1..], x, weight, o + 1);
    }
  }

  lemma {:induction false} DcgIsDcgFrom(rel: seq<nat>, weight: nat -> real)
    ensures Dcg(rel, weight) == DcgFrom(rel, weight, 0)
  {
    if rel != [] {
      DcgIsDcgFrom(DropLast(rel), weight);
      assert rel == DropLast(rel) + [Last(rel)];
      DcgFromAppend(DropLast(rel), Last(rel), weight, 0);
    }
  }

  /**
   The exchange step: a larger relevance ahead of a smaller one gains at least
   as much as the other way round, because the earlier discount is the larger.
   */
  lemma GainExchange(hi: nat, lo: nat, weight: nat -> real, o: nat)
    requires lo <= hi && DiscountsDecrease(weight)
    ensures Gain(lo, weight, o) + Gain(hi, weight, o + 1) <= Gain(hi, weight, o) + Gain(lo, weight, o + 1)
  {
    var d0, d1 := Discount(weight, o), Discount(weight, o + 1);
    assert d1 <= d0;
    assert (hi as real - lo as real) * (d0 - d1) >= 0.0;
  }

  lemma DcgFromCons(a: nat, rest: seq<nat>, weight: nat -> real, o: nat)
    ensures DcgFrom([a] + rest, weight, o) == Gain(a, weight, o) + DcgFrom(rest, weight, o + 1)
  {
    assert ([a] + rest)[1..] == rest;
  }

  /** Swapping a larger value ahead of a smaller one, with the rest no worse, never lowers the DCG. */
  lemma ConsExchange(x: nat, t0: nat, rest: seq<nat>, ins: seq<nat>, weight: nat -> real, o: nat)
    requires DiscountsDecrease(weight) && x <= t0
    requires DcgFrom([x] + rest, weight, o + 1) <= DcgFrom(ins, weight, o + 1)
    ensures DcgFrom([x] + ([t0] + rest), weight, o) <= DcgFrom([t0] + ins, weight, o)
  {
    DcgFromCons(x, [t0] + rest, weight, o);
    DcgFromCons(t0, rest, weight, o + 1);
    DcgFromCons(x, rest, weight, o + 1);
    DcgFromCons(t0, ins, weight, o);
    GainExchange(t0, x, weight, o);
  }

  lemma InsertStep(x: nat, t: seq<nat>, weight: nat -> real, o: nat)
    requires DiscountsDecrease(weight) && t != [] && x < t[0]
    requires DcgFrom([x] + t[1..], weight, o + 1) <= DcgFrom(Insert(x, t[1..], AsInt), weight, o + 1)
    ensures DcgFrom([x] + t, weight, o) <= DcgFrom(Insert(x, t, AsInt), weight, o)
  {
    assert t == [t[0]] + t[1..];
    assert Insert(x, t, AsInt) == [t[0]] + Insert(x, t[1..], AsInt);
    ConsExchange(x, t[0], t[1..], Insert(x, t[1..], AsInt), weight, o);
  }

  /** Putting the new element where insertion sort puts it never lowers the DCG. */
  lemma {:induction false} InsertRaisesDcg(x: nat, t: seq<nat>, weight: nat -> real, o: nat)
    requires DiscountsDecrease(weight) && NonIncreasing(t, AsInt)
    ensures DcgFrom([x] + t, weight, o) <= DcgFrom(Insert(x, t, AsInt), weight, o)
  {
    if t != [] && x < t[0] {
      NonIncreasingTail(t, AsInt);
      InsertRaisesDcg(x, t[1..], weight, o + 1);
      InsertStep(x, t, weight, o);
    } else {
      assert Insert(x, t, AsInt) == [x] + t;
    }
  }

  /** A common head keeps an ordering of the tails. */
  lemma ConsMonotone(head: nat, tail: seq<nat>, other: seq<nat>, weight: nat -> real, o: nat)
    requires DcgFrom(tail, weight, o + 1) <= DcgFrom(other, weight, o + 1)
    ensures DcgFrom([head] + tail, weight, o) <= DcgFrom([head] + other, weight, o)
  {
    DcgFromCons(head, tail, weight, o);
    DcgFromCons(head, other, weight, o);
  }

  lemma {:induction false} SortedDcgIsMaximal(rel: seq<nat>, weight: nat -> real, o: nat)
    requires DiscountsDecrease(weight)
    ensures DcgFrom(rel, weight, o) <= DcgFrom(SortBy(rel, AsInt), weight, o)
  {
    if rel != [] {
      SortedDcgIsMaximal(rel[1..], weight, o + 1);
      assert rel == [rel[0]] + rel[1..];
      ConsMonotone(rel[0], rel[1..], SortBy(rel[1..], AsInt), weight, o);
      InsertRaisesDcg(rel[0], SortBy(rel[1..], AsInt), weight, o);
    }
  }

  /**
   The ideal ordering is the best one: with discounts that never grow, no
   ordering of the relevances has a larger DCG than the descending one, so nDCG <= 1.
   */
  lemma IdealDcgIsMaximal(rel: seq<nat>, weight: nat -> real)
    requires DiscountsDecrease(weight)
    ensures Dcg(rel, weight) <= Dcg(SortDescending(rel), weight)
  {
    SortedDcgIsMaximal(rel, weight, 0);
    var s := SortBy(rel, AsInt);
    assert forall i, j :: 0 <= i < j < |s| ==> s[i] >= s[j] by {
      forall i, j | 0 <= i < j < |s|
        ensures s[i] >= s[j]
      {
        assert AsInt(s[i]) >= AsInt(s[j]);
      }
    }
    DescendingUnique(s, SortDescending(rel));
    DcgIsDcgFrom(rel, weight);
    DcgIsDcgFrom(s, weight);
  }

  /** With non-negative discounts DCG is never negative. */
  lemma {:induction false} DcgNonNegative(rel: seq<nat>, weight: nat -> real)
    requires DiscountsDecrease(weight)
    ensures Dcg(rel, weight) >= 0.0
  {
    if rel != [] {
      DcgNonNegative(DropLast(rel), weight);
      var i := |rel| - 1;
      if i > 0 {
        assert 0.0 <= Discount(weight, (i - 1) + 1);
      }
      assert Gain(Last(rel), weight, i) >= 0.0;
    }
  }

  // ---- nDCG ----

  /** Entry i is the real score of the i-th predicted song, 0 when the user never played it. */
  function Relevances(predicted: seq<SongScore>, realData: UserInfo): (r: seq<nat>)
    ensures |r| == |predicted|
  {
    seq(|predicted|, i requires 0 <= i < |predicted| => ScoreOf(realData, predicted[i].song))
  }

  /**
   nDCG's two ingredients: the DCG of the relevances in predicted order, and
   the DCG of the same relevances sorted descending (the ideal DCG).
   */
  method NDCG(predicted: seq<SongScore>, realData: UserInfo, weight: nat -> real) returns (dcg: real, idcg: real)
    ensures dcg == Dcg(Relevances(predicted, realData), weight)
    ensures idcg == Dcg(SortDescending(Relevances(predicted, realData)), weight)
    ensures DiscountsDecrease(weight) ==> 0.0 <= dcg <= idcg
  {
    var relevances: seq<nat> := [];
    var n := 0;
    while n < |predicted|
      invariant 0 <= n <= |predicted|
      invariant relevances == Relevances(predicted[..n], realData)
    {
      var song := predicted[n].song;
      if Contains(realData, song) {
        relevances := relevances + [ScoreOf(realData, song)];
      } else {
        ScoreOfAbsent(realData, song);
        relevances := relevances + [0];
      }
      assert predicted[..n + 1][n] == predicted[n];
      n := n + 1;
    }
    assert predicted[..n] == predicted;
    dcg := DCG(relevances, weight);
    relevances := SortDescending(relevances);
    idcg := DCG(relevances, weight);
    if DiscountsDecrease(weight) {
      DcgNonNegative(Relevances(predicted, realData), weight);
      IdealDcgIsMaximal(Relevances(predicted, realData), weight);
    }
  }

  /** Predictions already in descending order of relevance score nDCG = 1: dcg equals idcg. */
  lemma IdealOrderHasEqualDcg(predicted: seq<SongScore>, realData: UserInfo, weight: nat -> real)
    requires forall i, j :: 0 <= i < j < |predicted| ==>
               ScoreOf(realData, predicted[i].song) >= ScoreOf(realData, predicted[j].song)
    ensures Dcg(Relevances(predicted, realData), weight) == Dcg(SortDescending(Relevances(predicted, realData)), weight)
  {
    var rel := Relevances(predicted, realData);
    DescendingUnique(rel, SortDescending(rel));
  }

  // ---- Gini ----

  /**
   Weighted sum over counts sorted ascending, with the Gini weight
   `2 * (i + 1) - n - 1` of the 0-based position i (the 1-based `2j - n - 1`).
   */
  function GiniTerms(scores: seq<nat>, n: int): int
  {
    if scores == [] then 0 else GiniTerms(DropLast(scores), n) + (2 * |scores| - n - 1) * Last(scores)
  }

  function GiniSum(scores: seq<nat>): int
  {
    GiniTerms(scores, |scores|)
  }

  /** Sum of the counts. */
  function SumOf(scores: seq<nat>): nat
  {
    if scores == [] then 0 else SumOf(DropLast(scores)) + Last(scores)
  }

  /**
   The weights as crossValidation.h:106-107 writes them: `2 * i - size - 1` with
   a 0-based i. Every weight is 2 below the corrected one, so the sum falls
   short of the corrected sum by twice the total count.
   */
  function GiniTermsAsWritten(scores: seq<nat>, n: int): (r: int)
    ensures r == GiniTerms(scores, n) - 2 * SumOf(scores)
  {
    if scores == [] then 0 else GiniTermsAsWritten(DropLast(scores), n) + (2 * (|scores| - 1) - n - 1) * Last(scores)
  }

  function GiniSumAsWritten(scores: seq<nat>): (r: int)
    ensures r == GiniSum(scores) - 2 * SumOf(scores)
  {
    GiniTermsAsWritten(scores, |scores|)
  }

  lemma {:induction false} GiniTermsUniform(scores: seq<nat>, n: int, c: nat)
    requires forall i :: 0 <= i < |scores| ==> scores[i] == c
    ensures GiniTerms(scores, n) == c * |scores| * (|scores| - n)
  {
    if scores != [] {
      var t := |scores|;
      GiniTermsUniform(DropLast(scores), n, c);
      assert c * (t - 1) * (t - 1 - n) + (2 * t - n - 1) * c == c * t * (t - n);
    }
  }

  /** One more song of count c in the as-written uniform sum. */
  lemma UniformStepAsWritten(c: int, t: int, n: int)
    ensures c * (t - 1) * (t - 1 - n - 2) + (2 * (t - 1) - n - 1) * c == c * t * (t - n - 2)
  {
  }

  lemma {:induction false} GiniTermsAsWrittenUniform(scores: seq<nat>, n: int, c: nat)
    requires forall i :: 0 <= i < |scores| ==> scores[i] == c
    ensures GiniTermsAsWritten(scores, n) == c * |scores| * (|scores| - n - 2)
  {
    if scores != [] {
      var t, rest := |scores|, DropLast(scores);
      GiniTermsAsWrittenUniform(rest, n, c);
      assert Last(scores) == c;
      var prefix := GiniTermsAsWritten(rest, n);
      assert GiniTermsAsWritten(scores, n) == prefix + (2 * (t - 1) - n - 1) * c;
      UniformStepAsWritten(c, t, n);
    }
  }

  /** Songs recommended equally often have Gini 0 (corrected weights). */
  lemma GiniUniform(scores: seq<nat>, c: nat)
    requires forall i :: 0 <= i < |scores| ==> scores[i] == c
    ensures GiniSum(scores) == 0
  {
    GiniTermsUniform(scores, |scores|, c);
  }

  /** The total amount by which the entries of `t` lie below `x`: the sum of x - t[i]. */
  function DiffsTo(t: seq<nat>, x: nat): int
  {
    if t == [] then 0 else DiffsTo(DropLast(t), x) + (x - Last(t))
  }

  /** The sum of s[j] - s[i] over all pairs i < j: the mean-difference form of the Gini numerator. */
  function PairDiffs(s: seq<nat>): int
  {
    if s == [] then 0 else PairDiffs(DropLast(s)) + DiffsTo(DropLast(s), Last(s))
  }

  lemma {:induction false} DiffsToSum(t: seq<nat>, x: nat)
    ensures DiffsTo(t, x) == |t| * x - SumOf(t)
  {
    if t != [] {
      DiffsToSum(DropLast(t), x);
      assert |t| * x == (|t| - 1) * x + x;
    }
  }

  /** Changing the size the weights are taken against shifts the sum by a multiple of the total. */
  lemma {:induction false} GiniTermsShift(s: seq<nat>, n: int, k: int)
    ensures GiniTerms(s, n) == GiniTerms(s, k) + (k - n) * SumOf(s)
  {
    if s != [] {
      GiniTermsShift(DropLast(s), n, k);
      assert (k - n) * SumOf(s) == (k - n) * SumOf(DropLast(s)) + (k - n) * Last(s);
    }
  }

  /** The corrected Gini sum is the sum of all pairwise differences s[j] - s[i], i < j. */
  lemma {:induction false} GiniSumIsPairDiffs(s: seq<nat>)
    ensures GiniSum(s) == PairDiffs(s)
  {
    if s != [] {
      var rest, m := DropLast(s), |s|;
      GiniSumIsPairDiffs(rest);
      GiniTermsShift(rest, m, m - 1);
      DiffsToSum(rest, Last(s));
      assert GiniSum(s) == GiniTerms(rest, m) + (m - 1) * Last(s);
    }
  }

  /** Differences to an upper bound are never negative in total, and at least x - t[0]. */
  lemma {:induction false} DiffsToBound(t: seq<nat>, x: nat)
    requires forall i :: 0 <= i < |t| ==> t[i] <= x
    ensures DiffsTo(t, x) >= 0
    ensures t != [] ==> DiffsTo(t, x) >= x - t[0]
  {
    if t != [] {
      var rest := DropLast(t);
      assert forall i :: 0 <= i < |rest| ==> rest[i] == t[i];
      DiffsToBound(rest, x);
    }
  }

  /** Over ascending counts the pairwise differences add up to at least Last(s) - s[0]. */
  lemma {:induction false} PairDiffsBound(s: seq<nat>)
    requires forall i, j :: 0 <= i < j < |s| ==> s[i] <= s[j]
    ensures PairDiffs(s) >= 0
    ensures s != [] ==> PairDiffs(s) >= Last(s) - s[0]
  {
    if s != [] {
      var rest := DropLast(s);
      assert forall i :: 0 <= i < |rest| ==> rest[i] == s[i];
      PairDiffsBound(rest);
      DiffsToBound(rest, Last(s));
    }
  }

  /**
   With the corrected weights, Gini over ascending counts is the sum of all
   pairwise differences: never negative, and positive as soon as the counts
   are not all equal.
   */
  lemma GiniConcentration(s: seq<nat>)
    requires forall i, j :: 0 <= i < j < |s| ==> s[i] <= s[j]
    ensures GiniSum(s) == PairDiffs(s)
    ensures GiniSum(s) >= 0
    ensures s != [] && s[0] < s[|s| - 1] ==> GiniSum(s) > 0
  {
    GiniSumIsPairDiffs(s);
    PairDiffsBound(s);
  }

  /**
   With the weights as written, equal counts c over n songs give -2nc instead
   of 0: three songs recommended twice each give -12.
   */
  lemma GiniAsWrittenUniform(scores: seq<nat>, c: nat)
    requires forall i :: 0 <= i < |scores| ==> scores[i] == c
    ensures GiniSumAsWritten(scores) == -2 * c * |scores|
  {
    var t := |scores|;
    GiniTermsAsWrittenUniform(scores, t, c);
    assert c * t * (t - t - 2) == -2 * c * t;
  }

  /**
   Equal counts give -12 as written and 0 corrected; the most skewed counts
   {0, 0, 6} give 0 as written, what an even spread should give, and 12 corrected.
   */
  lemma GiniAsWrittenExample()
    ensures GiniSumAsWritten([2, 2, 2]) == -12
    ensures GiniSum([2, 2, 2]) == 0
    ensures GiniSumAsWritten([0, 0, 6]) == 0
    ensures GiniSum([0, 0, 6]) == 12
  {
    GiniAsWrittenUniform([2, 2, 2], 2);
    GiniUniform([2, 2, 2], 2);
    var skewed: seq<nat> := [0, 0, 6];
    assert DropLast(skewed) == [0, 0] && DropLast([0, 0]) == [0] && DropLast([0]) == [];
    assert GiniTerms([0, 0], 3) == 0 && GiniTermsAsWritten([0, 0], 3) == 0;
  }

  /** Some sequence holding exactly the given multiset. */
  ghost function SeqOf(ms: multiset<nat>): (s: seq<nat>)
    ensures multiset(s) == ms
    decreases |ms|
  {
    if ms == multiset{} then []
    else
      var x :| x in ms;
      [x] + SeqOf(ms - multiset{x})
  }

  /** The Gini sum of a multiset of counts: its counts sorted ascending, weighted as line 107 writes it. */
  ghost function GiniOfAsWritten(ms: multiset<nat>): int
  {
    GiniSumAsWritten(SortAscending(SeqOf(ms)))
  }

  /** The same with the corrected weights. */
  ghost function GiniOf(ms: multiset<nat>): int
  {
    GiniSum(SortAscending(SeqOf(ms)))
  }

  /**
   Gini over the counter as written: collect the counts in whatever order the
   map yields them, sort them ascending, and sum them with the weights
   `2 * i - size - 1`. The result depends only on the multiset of counts.
   */
  method Gini(timesRecommended: Counts) returns (gini: int, scores: seq<nat>)
    ensures multiset(scores) == CountsOf(timesRecommended) && |scores| == |timesRecommended|
    ensures forall i, j :: 0 <= i < j < |scores| ==> scores[i] <= scores[j]
    ensures gini == GiniSumAsWritten(scores)
    ensures gini == GiniOfAsWritten(CountsOf(timesRecommended))
  {
    scores := SortedCounts(timesRecommended);
    gini := WeightedSum(scores);
  }

  /**
   Gini with the corrected weights `2 * (i + 1) - size - 1`: 0 for an even
   spread, positive once some song is recommended more often than another.
   */
  method GiniCorrected(timesRecommended: Counts) returns (gini: int, scores: seq<nat>)
    ensures multiset(scores) == CountsOf(timesRecommended) && |scores| == |timesRecommended|
    ensures forall i, j :: 0 <= i < j < |scores| ==> scores[i] <= scores[j]
    ensures gini == GiniSum(scores)
    ensures gini == GiniOf(CountsOf(timesRecommended))
    ensures gini >= 0 && (scores != [] && scores[0] < scores[|scores| - 1] ==> gini > 0)
  {
    scores := SortedCounts(timesRecommended);
    gini := WeightedSumCorrected(scores);
    GiniConcentration(scores);
  }

  /** The collect-and-sort part of Gini: the counts in ascending order, whatever the map's order. */
  method SortedCounts(timesRecommended: Counts) returns (scores: seq<nat>)
    ensures multiset(scores) == CountsOf(timesRecommended) && |scores| == |timesRecommended|
    ensures forall i, j :: 0 <= i < j < |scores| ==> scores[i] <= scores[j]
    ensures scores == SortAscending(SeqOf(CountsOf(timesRecommended)))
  {
    var collected := CollectCounts(timesRecommended);
    scores := SortAscending(collected);
    CountsOfSize(timesRecommended);
    assert |scores| == |multiset(scores)|;
    AscendingUnique(scores, SortAscending(SeqOf(CountsOf(timesRecommended))));
  }

  /** The push_back loop over the map: every count once, in the map's own order. */
  method CollectCounts(timesRecommended: Counts) returns (collected: seq<nat>)
    ensures multiset(collected) == CountsOf(timesRecommended)
  {
    var rest := timesRecommended;
    collected := [];
    while rest != map[]
      invariant multiset(collected) + CountsOf(rest) == CountsOf(timesRecommended)
      decreases |rest|
    {
      var song :| song in rest;
      collected := collected + [rest[song]];
      CountsOfRemove(rest, song);
      RemoveKeySize(rest, song);
      rest := rest - {song};
    }
  }

  /** The weighting loop of Gini as written, over counts already sorted. */
  method WeightedSum(scores: seq<nat>) returns (gini: int)
    ensures gini == GiniSumAsWritten(scores)
  {
    var size := |scores|;
    gini := 0;
    var i := 0;
    while i != size
      invariant 0 <= i <= size
      invariant gini == GiniTermsAsWritten(scores[..i], size)
    {
      assert DropLast(scores[..i + 1]) == scores[..i];
      gini := gini + (2 * i - size - 1) * scores[i];
      i := i + 1;
    }
    assert scores[..size] == scores;
  }

  /** The weighting loop with the corrected weights. */
  method WeightedSumCorrected(scores: seq<nat>) returns (gini: int)
    ensures gini == GiniSum(scores)
  {
    var size := |scores|;
    gini := 0;
    var i := 0;
    while i != size
      invariant 0 <= i <= size
      invariant gini == GiniTerms(scores[..i], size)
    {
      assert DropLast(scores[..i + 1]) == scores[..i];
      gini := gini + (2 * (i + 1) - size - 1) * scores[i];
      i := i + 1;
    }
    assert scores[..size] == scores;
  }
}
