/**
 cosBetweenTwoUsers (recommender.cpp): one two-iterator merge over two user
 vectors sorted by song, accumulating the squares of each side's scores and
 the products on common songs. The merge stops as soon as either vector runs
 out, so each square sum covers only the prefix of its vector that the merge
 reached. The floating-point finish `common / sqrt(fstSq * sndSq)` is a
 parameter `finish`.
 */
module Similarity {
  import opened Songs

  /** The three accumulators of the merge. */
  datatype CosSums = CosSums(fstSq: nat, sndSq: nat, common: nat)

  /** Sum of the squared scores of a vector. */
  function SumSq(u: UserInfo): nat
  {
    if u == [] then 0 else SumSq(DropLast(u)) + Last(u).score * Last(u).score
  }

  /** Sum over the entries of `a` of its score times the score of the same song in `b` (0 if absent). */
  function Dot(a: UserInfo, b: UserInfo): nat
  {
    if a == [] then 0 else Dot(DropLast(a), b) + Last(a).score * ScoreOf(b, Last(a).song)
  }

  /** How many entries of `u` have a song strictly below `bound`. */
  function CountBelow(u: UserInfo, bound: SongID): (n: nat)
    ensures n <= |u|
  {
    if u == [] then 0
    else CountBelow(DropLast(u), bound) + (if Lt(Last(u).song, bound) then 1 else 0)
  }

  /**
   The length of the prefix of `a` whose squares the merge adds up against `b`:
   every entry of `a` below the last song of `b`, plus the first entry that is not.
   */
  function Visited(a: UserInfo, b: UserInfo): (n: nat)
    ensures n <= |a|
  {
    if a == [] || b == [] then 0
    else if CountBelow(a, Last(b).song) < |a| then CountBelow(a, Last(b).song) + 1
    else |a|
  }

  /** What the merge accumulates, stated without the merge. */
  function Accumulators(fst: UserInfo, snd: UserInfo): CosSums
  {
    CosSums(SumSq(fst[..Visited(fst, snd)]), SumSq(snd[..Visited(snd, fst)]), Dot(fst, snd))
  }

  /** The value cosBetweenTwoUsers returns: 0 for an empty side, else the finish of the sums. */
  function CosValue(fst: UserInfo, snd: UserInfo, finish: CosSums -> real): real
  {
    if fst == [] || snd == [] then 0.0 else finish(Accumulators(fst, snd))
  }

  /**
   The order facts the merge keeps between iterations. `fa` (`sa`) says that the
   square of the first (second) vector's current head is already counted.
   */
  ghost predicate Merging(fst: UserInfo, snd: UserInfo, i: nat, j: nat, fa: bool, sa: bool)
  {
    && Sorted(fst) && Sorted(snd) && i <= |fst| && j <= |snd|
    && (fa ==> i < |fst| && j > 0)
    && (sa ==> j < |snd| && i > 0)
    && !(fa && sa)
    && (forall p :: 0 <= p < i && j < |snd| ==> Lt(fst[p].song, snd[j].song))
    && (forall q :: 0 <= q < j && i < |fst| ==> Lt(snd[q].song, fst[i].song))
    && (fa ==> forall p :: 0 <= p < i ==> Lt(fst[p].song, snd[j - 1].song))
    && (sa ==> forall q :: 0 <= q < j ==> Lt(snd[q].song, fst[i - 1].song))
    && (!fa && !sa && (i > 0 || j > 0) ==> i > 0 && j > 0 && fst[i - 1].song == snd[j - 1].song)
  }

  lemma MergingSymmetric(fst: UserInfo, snd: UserInfo, i: nat, j: nat, fa: bool, sa: bool)
    ensures Merging(fst, snd, i, j, fa, sa) == Merging(snd, fst, j, i, sa, fa)
  {
  }

  /**
   The merge of cosBetweenTwoUsers. `steps` counts the loop's iterations.
   */
  method CosBetweenTwoUsers(fst: UserInfo, snd: UserInfo, finish: CosSums -> real)
    returns (cos: real, sums: CosSums, ghost steps: nat)
    requires Sorted(fst) && Sorted(snd)
    ensures sums == Accumulators(fst, snd)
    ensures cos == CosValue(fst, snd, finish)
    ensures fst == [] || snd == [] ==> cos == 0.0 && sums == CosSums(0, 0, 0)
    ensures sums.common * sums.common <= sums.fstSq * sums.sndSq
    ensures steps <= |fst| + |snd|
  {
    if fst == [] || snd == [] {
      AccumulatorsOfEmpty(fst, snd);
      return 0.0, CosSums(0, 0, 0), 0;
    }
    var fstSumMarksSqr: nat, sndSumMarksSqr: nat, sumCommonMarksMult: nat := 0, 0, 0;
    var i: nat, j: nat := 0, 0;
    var fstMarkWasAdded, sndMarkWasAdded := false, false;
    steps := 0;
    while i < |fst| && j < |snd|
      invariant MergeSums(fst, snd, i, j, fstMarkWasAdded, sndMarkWasAdded, fstSumMarksSqr, sndSumMarksSqr, sumCommonMarksMult)
      invariant steps <= i + j
      decreases |fst| - i + |snd| - j
    {
      i, j, fstMarkWasAdded, sndMarkWasAdded, fstSumMarksSqr, sndSumMarksSqr, sumCommonMarksMult :=
        MergeStep(fst, snd, i, j, fstMarkWasAdded, sndMarkWasAdded, fstSumMarksSqr, sndSumMarksSqr, sumCommonMarksMult);
      steps := steps + 1;
    }
    ExitSums(fst, snd, i, j, fstMarkWasAdded, sndMarkWasAdded, fstSumMarksSqr, sndSumMarksSqr, sumCommonMarksMult);
    sums := CosSums(fstSumMarksSqr, sndSumMarksSqr, sumCommonMarksMult);
    cos := finish(sums);
  }

  /**
   One iteration of the merge: count each head's square once, then advance past
   a common song (adding the product of both scores) or past the smaller song.
   */
  method MergeStep(fst: UserInfo, snd: UserInfo, i: nat, j: nat, fstMarkWasAdded: bool, sndMarkWasAdded: bool,
                   fstSumMarksSqr: nat, sndSumMarksSqr: nat, sumCommonMarksMult: nat)
    returns (i': nat, j': nat, fa': bool, sa': bool, fSq': nat, sSq': nat, common': nat)
    requires i < |fst| && j < |snd|
    requires MergeSums(fst, snd, i, j, fstMarkWasAdded, sndMarkWasAdded, fstSumMarksSqr, sndSumMarksSqr, sumCommonMarksMult)
    ensures MergeSums(fst, snd, i', j', fa', sa', fSq', sSq', common')
    ensures i <= i' && j <= j' && i + j < i' + j'
  {
    i', j', fa', sa', fSq', sSq', common' := i, j, fstMarkWasAdded, sndMarkWasAdded, fstSumMarksSqr, sndSumMarksSqr, sumCommonMarksMult;
    var fstSong := fst[i].song;
    var sndSong := snd[j].song;
    if !fa' {
      fSq' := fSq' + Sq(fst[i]);
      fa' := true;
    }
    if !sa' {
      sSq' := sSq' + Sq(snd[j]);
      sa' := true;
    }
    // the two sums in the form the step lemmas state them
    ghost var added := (fSq', sSq');
    assert added == (fstSumMarksSqr + (if fstMarkWasAdded then 0 else Sq(fst[i])),
                     sndSumMarksSqr + (if sndMarkWasAdded then 0 else Sq(snd[j])));
    if fstSong == sndSong {
      MatchAdvance(fst, snd, i, j, fstMarkWasAdded, sndMarkWasAdded, fstSumMarksSqr, sndSumMarksSqr, sumCommonMarksMult);
      common' := common' + fst[i].score * snd[j].score;
      i', j' := i + 1, j + 1;
      fa', sa' := false, false;
    } else if Lt(fstSong, sndSong) {
      FstAdvance(fst, snd, i, j, fstMarkWasAdded, sndMarkWasAdded, fstSumMarksSqr, sndSumMarksSqr, sumCommonMarksMult);
      i' := i + 1;
      fa' := false;
    } else {
      LtTrichotomy(fstSong, sndSong);
      SndAdvance(fst, snd, i, j, fstMarkWasAdded, sndMarkWasAdded, fstSumMarksSqr, sndSumMarksSqr, sumCommonMarksMult);
      j' := j + 1;
      sa' := false;
    }
  }

  /** The loop invariant of the merge: the order facts and what each accumulator holds. */
  ghost predicate MergeSums(fst: UserInfo, snd: UserInfo, i: nat, j: nat, fa: bool, sa: bool,
                            fSq: nat, sSq: nat, common: nat)
  {
    && Merging(fst, snd, i, j, fa, sa)
    && fSq == SumSq(fst[..i + if fa then 1 else 0])
    && sSq == SumSq(snd[..j + if sa then 1 else 0])
    && common == Dot(fst[..i], snd)
    && common * common <= SumSq(fst[..i]) * SumSq(snd[..j])
  }

  /** Square of a score, added once per visited entry. */
  function Sq(e: SongScore): nat { e.score * e.score }

  lemma MatchAdvance(fst: UserInfo, snd: UserInfo, i: nat, j: nat, fa: bool, sa: bool,
                     fSq: nat, sSq: nat, common: nat)
    requires MergeSums(fst, snd, i, j, fa, sa, fSq, sSq, common) && i < |fst| && j < |snd|
    requires fst[i].song == snd[j].song
    ensures MergeSums(fst, snd, i + 1, j + 1, false, false,
                      fSq + (if fa then 0 else Sq(fst[i])), sSq + (if sa then 0 else Sq(snd[j])),
                      common + fst[i].score * snd[j].score)
  {
    MatchStep(fst, snd, i, j, fa, sa);
    SumSqStep(fst, i);
    SumSqStep(snd, j);
    DotStep(fst, snd, i);
    CauchyStep(common, SumSq(fst[..i]), SumSq(snd[..j]), fst[i].score, snd[j].score);
  }

  lemma FstAdvance(fst: UserInfo, snd: UserInfo, i: nat, j: nat, fa: bool, sa: bool,
                   fSq: nat, sSq: nat, common: nat)
    requires MergeSums(fst, snd, i, j, fa, sa, fSq, sSq, common) && i < |fst| && j < |snd|
    requires Lt(fst[i].song, snd[j].song)
    ensures MergeSums(fst, snd, i + 1, j, false, true,
                      fSq + (if fa then 0 else Sq(fst[i])), sSq + (if sa then 0 else Sq(snd[j])),
                      common)
  {
    FstStep(fst, snd, i, j, fa, sa);
    SumSqStep(fst, i);
    SumSqStep(snd, j);
    DotStep(fst, snd, i);
    MulMonotone(SumSq(fst[..i]), SumSq(fst[..i + 1]), SumSq(snd[..j]));
  }

  lemma SndAdvance(fst: UserInfo, snd: UserInfo, i: nat, j: nat, fa: bool, sa: bool,
                   fSq: nat, sSq: nat, common: nat)
    requires MergeSums(fst, snd, i, j, fa, sa, fSq, sSq, common) && i < |fst| && j < |snd|
    requires Lt(snd[j].song, fst[i].song)
    ensures MergeSums(fst, snd, i, j + 1, true, false,
                      fSq + (if fa then 0 else Sq(fst[i])), sSq + (if sa then 0 else Sq(snd[j])),
                      common)
  {
    MergingSymmetric(fst, snd, i, j, fa, sa);
    FstStep(snd, fst, j, i, sa, fa);
    MergingSymmetric(fst, snd, i, j + 1, true, false);
    SumSqStep(fst, i);
    SumSqStep(snd, j);
    MulMonotone(SumSq(snd[..j]), SumSq(snd[..j + 1]), SumSq(fst[..i]));
  }

  /** What the loop's state means once the merge stops. */
  lemma ExitSums(fst: UserInfo, snd: UserInfo, i: nat, j: nat, fa: bool, sa: bool, fSq: nat, sSq: nat, common: nat)
    requires fst != [] && snd != [] && !(i < |fst| && j < |snd|)
    requires MergeSums(fst, snd, i, j, fa, sa, fSq, sSq, common)
    ensures CosSums(fSq, sSq, common) == Accumulators(fst, snd)
    ensures common * common <= fSq * sSq
  {
    VisitedAtExit(fst, snd, i, j, fa, sa);
    MergingSymmetric(fst, snd, i, j, fa, sa);
    VisitedAtExit(snd, fst, j, i, sa, fa);
    CommonAtExit(fst, snd, i, j, fa, sa);
    var vf, vs := Visited(fst, snd), Visited(snd, fst);
    SumSqPrefixMonotone(fst, i, vf);
    SumSqPrefixMonotone(snd, j, vs);
    MulMonotone(SumSq(fst[..i]), SumSq(fst[..vf]), SumSq(snd[..j]));
    MulMonotone(SumSq(snd[..j]), SumSq(snd[..vs]), SumSq(fst[..vf]));
  }

  // ---- Steps of the merge ----

  lemma SumSqStep(u: UserInfo, i: nat)
    requires i < |u|
    ensures SumSq(u[..i + 1]) == SumSq(u[..i]) + u[i].score * u[i].score
  {
    assert DropLast(u[..i + 1]) == u[..i];
  }

  lemma DotStep(a: UserInfo, b: UserInfo, i: nat)
    requires i < |a|
    ensures Dot(a[..i + 1], b) == Dot(a[..i], b) + a[i].score * ScoreOf(b, a[i].song)
  {
    assert DropLast(a[..i + 1]) == a[..i];
  }

  lemma SumSqPrefixMonotone(u: UserInfo, i: nat, k: nat)
    requires i <= k <= |u|
    ensures SumSq(u[..i]) <= SumSq(u[..k])
    decreases k - i
  {
    if i < k {
      SumSqStep(u, i);
      SumSqPrefixMonotone(u, i + 1, k);
    }
  }

  lemma MulMonotone(x: nat, y: nat, z: nat)
    requires x <= y
    ensures x * z <= y * z && z * x <= z * y
  {
  }

  /** One step where both heads carry the same song: both advance. */
  lemma MatchStep(fst: UserInfo, snd: UserInfo, i: nat, j: nat, fa: bool, sa: bool)
    requires Merging(fst, snd, i, j, fa, sa) && i < |fst| && j < |snd|
    requires fst[i].song == snd[j].song
    ensures ScoreOf(snd, fst[i].song) == snd[j].score
    ensures Merging(fst, snd, i + 1, j + 1, false, false)
  {
    forall q | 0 <= q < j
      ensures snd[q].song != fst[i].song
    {
      LtAsymmetric(snd[q].song, fst[i].song);
    }
    ScoreOfAt(snd, j, fst[i].song);
    MatchKeepsBelow(fst, snd, i, j);
    MatchKeepsBelow(snd, fst, j, i);
  }

  /** After a match at (i, j), everything up to fst[i] stays below snd[j + 1]. */
  lemma MatchKeepsBelow(fst: UserInfo, snd: UserInfo, i: nat, j: nat)
    requires Sorted(snd) && i < |fst| && j < |snd|
    requires forall p :: 0 <= p < i ==> Lt(fst[p].song, snd[j].song)
    requires fst[i].song == snd[j].song
    ensures forall p :: 0 <= p < i + 1 && j + 1 < |snd| ==> Lt(fst[p].song, snd[j + 1].song)
  {
    if j + 1 < |snd| {
      assert Lt(snd[j].song, snd[j + 1].song);
      forall p | 0 <= p < i + 1
        ensures Lt(fst[p].song, snd[j + 1].song)
      {
        if p < i {
          LtTransitive(fst[p].song, snd[j].song, snd[j + 1].song);
        }
      }
    }
  }

  /**
   One step where the first vector's head is below the second's: the first
   advances and the second's head stays counted.
   */
  lemma FstStep(fst: UserInfo, snd: UserInfo, i: nat, j: nat, fa: bool, sa: bool)
    requires Merging(fst, snd, i, j, fa, sa) && i < |fst| && j < |snd|
    requires Lt(fst[i].song, snd[j].song)
    ensures ScoreOf(snd, fst[i].song) == 0
    ensures Merging(fst, snd, i + 1, j, false, true)
  {
    AbsentBetween(snd, j, fst[i].song);
    ScoreOfAbsent(snd, fst[i].song);
    assert forall p :: 0 <= p < i + 1 ==> Lt(fst[p].song, snd[j].song);
    StaysBelowNext(fst, snd, i, j);
  }

  /** A song above everything before position j and below the entry at j is not in a sorted user. */
  lemma AbsentBetween(u: UserInfo, j: nat, song: SongID)
    requires Sorted(u) && j < |u|
    requires forall q :: 0 <= q < j ==> Lt(u[q].song, song)
    requires Lt(song, u[j].song)
    ensures !Contains(u, song)
  {
    forall q | 0 <= q < |u|
      ensures u[q].song != song
    {
      if q < j {
        LtAsymmetric(u[q].song, song);
      } else if q > j {
        LtTransitive(song, u[j].song, u[q].song);
        LtAsymmetric(song, u[q].song);
      } else {
        LtAsymmetric(song, u[j].song);
      }
    }
  }

  /** Everything of `snd` below fst[i] is also below fst[i + 1]. */
  lemma StaysBelowNext(fst: UserInfo, snd: UserInfo, i: nat, j: nat)
    requires Sorted(fst) && i < |fst| && j <= |snd|
    requires forall q :: 0 <= q < j ==> Lt(snd[q].song, fst[i].song)
    ensures forall q :: 0 <= q < j && i + 1 < |fst| ==> Lt(snd[q].song, fst[i + 1].song)
  {
    if i + 1 < |fst| {
      assert Lt(fst[i].song, fst[i + 1].song);
      forall q | 0 <= q < j
        ensures Lt(snd[q].song, fst[i + 1].song)
      {
        LtTransitive(snd[q].song, fst[i].song, fst[i + 1].song);
      }
    }
  }

  /** One Cauchy-Schwarz step: adding an aligned pair keeps common^2 <= sqFst * sqSnd. */
  lemma CauchyStep(c: nat, f: nat, s: nat, x: nat, y: nat)
    requires c * c <= f * s
    ensures (c + x * y) * (c + x * y) <= (f + x * x) * (s + y * y)
  {
    var w := x * y;
    var a := f * (y * y);
    var b := s * (x * x);
    CrossTerm(c, f, s, x, y);
    AmGm(a, b, c * w);
    ExpandLeft(c, w);
    ExpandRight(f, s, x, y);
  }

  lemma CrossTerm(c: nat, f: nat, s: nat, x: nat, y: nat)
    requires c * c <= f * s
    ensures (c * (x * y)) * (c * (x * y)) <= (f * (y * y)) * (s * (x * x))
  {
    var w := (x * y) * (x * y);
    assert (c * (x * y)) * (c * (x * y)) == (c * c) * w;
    assert (f * (y * y)) * (s * (x * x)) == (f * s) * w;
    MulMonotone(c * c, f * s, w);
  }

  /** 2d <= a + b whenever d^2 <= ab. */
  lemma AmGm(a: nat, b: nat, d: nat)
    requires d * d <= a * b
    ensures 2 * d <= a + b
  {
    assert (a + b) * (a + b) == 4 * (a * b) + (a - b) * (a - b);
    assert (2 * d) * (2 * d) == 4 * (d * d);
    SquareLe(2 * d, a + b);
  }

  lemma ExpandLeft(c: nat, w: nat)
    ensures (c + w) * (c + w) == c * c + 2 * (c * w) + w * w
  {
  }

  lemma ExpandRight(f: nat, s: nat, x: nat, y: nat)
    ensures (f + x * x) * (s + y * y) == f * s + f * (y * y) + s * (x * x) + (x * y) * (x * y)
  {
  }

  lemma SquareLe(u: nat, v: nat)
    requires u * u <= v * v
    ensures u <= v
  {
    if u > v {
      var d := u - v;
      assert u * u == v * v + 2 * (v * d) + d * d;
      MulMonotone(1, d, d);
    }
  }

  // ---- The state at loop exit ----

  lemma {:induction false} CountBelowExact(u: UserInfo, t: nat, bound: SongID)
    requires t <= |u|
    requires forall p :: 0 <= p < t ==> Lt(u[p].song, bound)
    requires forall p :: t <= p < |u| ==> !Lt(u[p].song, bound)
    ensures CountBelow(u, bound) == t
  {
    if u != [] {
      if t == |u| {
        CountBelowExact(DropLast(u), t - 1, bound);
      } else {
        CountBelowExact(DropLast(u), t, bound);
      }
    }
  }

  /**
   When the merge stops, the first vector's square sum covers exactly the
   prefix `Visited(fst, snd)`: its position plus the pending head, if that was counted.
   */
  lemma VisitedAtExit(fst: UserInfo, snd: UserInfo, i: nat, j: nat, fa: bool, sa: bool)
    requires fst != [] && snd != [] && Merging(fst, snd, i, j, fa, sa) && !(i < |fst| && j < |snd|)
    ensures Visited(fst, snd) == i + if fa then 1 else 0
  {
    var bound := Last(snd).song;
    if j == |snd| {
      if fa {
        forall p | i <= p < |fst|
          ensures !Lt(fst[p].song, bound)
        {
          LtAsymmetric(bound, fst[i].song);
          if p > i {
            LtTransitive(bound, fst[i].song, fst[p].song);
            LtAsymmetric(bound, fst[p].song);
          }
        }
        CountBelowExact(fst, i, bound);
      } else {
        forall p | i - 1 <= p < |fst|
          ensures !Lt(fst[p].song, bound)
        {
          if p == i - 1 {
            LtIrreflexive(bound);
          } else {
            LtAsymmetric(bound, fst[p].song);
          }
        }
        CountBelowExact(fst, i - 1, bound);
      }
    } else {
      forall p | 0 <= p < |fst|
        ensures Lt(fst[p].song, bound)
      {
        if j < |snd| - 1 {
          LtTransitive(fst[p].song, snd[j].song, bound);
        }
      }
      CountBelowExact(fst, |fst|, bound);
    }
  }

  /** When the merge stops, the common sum already covers every common song. */
  lemma CommonAtExit(fst: UserInfo, snd: UserInfo, i: nat, j: nat, fa: bool, sa: bool)
    requires Merging(fst, snd, i, j, fa, sa) && !(i < |fst| && j < |snd|)
    ensures Dot(fst[..i], snd) == Dot(fst, snd)
  {
    if i < |fst| {
      forall p | i <= p < |fst|
        ensures ScoreOf(snd, fst[p].song) == 0
      {
        forall q | 0 <= q < |snd|
          ensures snd[q].song != fst[p].song
        {
          if p > i {
            LtTransitive(snd[q].song, fst[i].song, fst[p].song);
          }
          LtAsymmetric(snd[q].song, fst[p].song);
        }
        ScoreOfAbsent(snd, fst[p].song);
      }
      DotAbsentSuffix(fst, snd, i, |fst|);
    }
    assert fst[..|fst|] == fst;
  }

  lemma {:induction false} DotAbsentSuffix(a: UserInfo, b: UserInfo, i: nat, k: nat)
    requires i <= k <= |a|
    requires forall p :: i <= p < |a| ==> ScoreOf(b, a[p].song) == 0
    ensures Dot(a[..k], b) == Dot(a[..i], b)
    decreases k
  {
    if i < k {
      DotStep(a, b, k - 1);
      DotAbsentSuffix(a, b, i, k - 1);
    }
  }

  // ---- Properties of the accumulators ----

  lemma {:induction false} DotEmptyRight(a: UserInfo)
    ensures Dot(a, []) == 0
  {
    if a != [] {
      DotEmptyRight(DropLast(a));
    }
  }

  /** If either vector is empty nothing is accumulated. */
  lemma AccumulatorsOfEmpty(fst: UserInfo, snd: UserInfo)
    requires fst == [] || snd == []
    ensures Accumulators(fst, snd) == CosSums(0, 0, 0)
  {
    DotEmptyRight(fst);
  }

  lemma UniqueDropLast(a: UserInfo)
    requires Unique(a) && a != []
    ensures Unique(DropLast(a)) && !Contains(DropLast(a), Last(a).song)
  {
  }

  /** Adding an entry for a new song to `b` adds that song's product to the dot product. */
  lemma {:induction false} DotAppendRight(a: UserInfo, b: UserInfo, y: SongScore)
    requires Unique(a) && !Contains(b, y.song)
    ensures Dot(a, b + [y]) == Dot(a, b) + ScoreOf(a, y.song) * y.score
  {
    if a != [] {
      var a', x := DropLast(a), Last(a);
      UniqueDropLast(a);
      DotAppendRight(a', b, y);
      var e := if x.song == y.song then 1 else 0;
      ScoreOfAppendNew(b, y, x.song);
      assert ScoreOf(b + [y], x.song) == ScoreOf(b, x.song) + e * y.score;
      assert a == a' + [x];
      ScoreOfAppendNew(a', x, y.song);
      assert ScoreOf(a, y.song) == ScoreOf(a', y.song) + e * x.score;
      assert Dot(a, b + [y]) == Dot(a', b + [y]) + x.score * ScoreOf(b + [y], x.song);
      assert Dot(a, b) == Dot(a', b) + x.score * ScoreOf(b, x.song);
      Distribute(x.score, ScoreOf(b, x.song), ScoreOf(a', y.song), y.score, e);
    }
  }

  lemma Distribute(xs: nat, sb: nat, sa: nat, ys: nat, e: nat)
    ensures xs * (sb + e * ys) + sa * ys == xs * sb + (sa + e * xs) * ys
  {
  }

  /** The common sum does not depend on the order of the arguments. */
  lemma {:induction false} DotSymmetric(a: UserInfo, b: UserInfo)
    requires Unique(a) && Unique(b)
    ensures Dot(a, b) == Dot(b, a)
  {
    if b == [] {
      DotEmptyRight(a);
    } else {
      var b', y := DropLast(b), Last(b);
      UniqueDropLast(b);
      assert b == b' + [y];
      DotAppendRight(a, b', y);
      DotSymmetric(a, b');
    }
  }

  lemma {:induction false} DotSelfPrefix(a: UserInfo, t: nat)
    requires Unique(a) && t <= |a|
    ensures Dot(a[..t], a) == SumSq(a[..t])
  {
    if t > 0 {
      DotSelfPrefix(a, t - 1);
      DotStep(a, a, t - 1);
      SumSqStep(a, t - 1);
      ScoreOfOwnEntry(a, t - 1);
    }
  }

  /**
   Swapping the arguments swaps the two square sums and keeps the common sum,
   so the similarity is symmetric.
   */
  lemma AccumulatorsSymmetric(fst: UserInfo, snd: UserInfo)
    requires Sorted(fst) && Sorted(snd)
    ensures Accumulators(snd, fst).fstSq == Accumulators(fst, snd).sndSq
    ensures Accumulators(snd, fst).sndSq == Accumulators(fst, snd).fstSq
    ensures Accumulators(snd, fst).common == Accumulators(fst, snd).common
  {
    SortedIsUnique(fst);
    SortedIsUnique(snd);
    DotSymmetric(fst, snd);
  }

  /** Against itself a vector is visited whole, and all three sums are its sum of squares. */
  lemma AccumulatorsSelf(u: UserInfo)
    requires Sorted(u)
    ensures Accumulators(u, u) == CosSums(SumSq(u), SumSq(u), SumSq(u))
  {
    SortedIsUnique(u);
    DotSelfPrefix(u, |u|);
    assert u[..|u|] == u;
    if u != [] {
      var bound := Last(u).song;
      forall p | |u| - 1 <= p < |u|
        ensures !Lt(u[p].song, bound)
      {
        LtIrreflexive(bound);
      }
      CountBelowExact(u, |u| - 1, bound);
    }
  }

  // ---- Whole-vector norms ----

  /** The sums a cosine over whole vectors needs: every square on each side. */
  function FullSums(fst: UserInfo, snd: UserInfo): CosSums
  {
    CosSums(SumSq(fst), SumSq(snd), Dot(fst, snd))
  }

  /** The corrected similarity value: 0 for an empty side, else the finish of the whole-vector sums. */
  function FullCosValue(fst: UserInfo, snd: UserInfo, finish: CosSums -> real): real
  {
    if fst == [] || snd == [] then 0.0 else finish(FullSums(fst, snd))
  }

  /**
   The merge stops as soon as one side runs out, so the other side's remaining
   squares are never added: for [(A, 1), (B, 1)] against [(A, 1)] the merge
   accumulates (1, 1, 1) and the cosine comes out 1, where the whole-vector
   sums are (2, 1, 1) and the cosine is 1 / sqrt(2).
   */
  lemma PrefixNormExample()
    ensures Accumulators([SongScore("A", 1), SongScore("B", 1)], [SongScore("A", 1)]) == CosSums(1, 1, 1)
    ensures FullSums([SongScore("A", 1), SongScore("B", 1)], [SongScore("A", 1)]) == CosSums(2, 1, 1)
  {
    var fst, snd := [SongScore("A", 1), SongScore("B", 1)], [SongScore("A", 1)];
    assert Lt("A", "B") && !Lt("A", "A") && !Lt("B", "A");
    assert DropLast(fst) == [SongScore("A", 1)];
    assert CountBelow(fst, "A") == 0;
    assert CountBelow(snd, "B") == 1;
    assert fst[..1] == [SongScore("A", 1)];
    assert snd[..1] == snd;
    assert ScoreOf(snd, "B") == 0;
  }

  /** One pass summing the squared scores of a vector. */
  method SumOfSquares(u: UserInfo) returns (sum: nat)
    ensures sum == SumSq(u)
  {
    sum := 0;
    var i := 0;
    while i < |u|
      invariant 0 <= i <= |u|
      invariant sum == SumSq(u[..i])
    {
      SumSqStep(u, i);
      sum := sum + u[i].score * u[i].score;
      i := i + 1;
    }
    assert u[..i] == u;
  }

  /**
   The corrected similarity: the merge still supplies the common products, and
   the norms are taken over the whole vectors, so the sums satisfy the
   Cauchy-Schwarz bound and the finish of an exact cosine lies in [0, 1].
   */
  method CosBetweenTwoUsersFull(fst: UserInfo, snd: UserInfo, finish: CosSums -> real)
    returns (cos: real, sums: CosSums)
    requires Sorted(fst) && Sorted(snd)
    ensures sums == FullSums(fst, snd)
    ensures cos == FullCosValue(fst, snd, finish)
    ensures fst == [] || snd == [] ==> cos == 0.0
    ensures sums.common * sums.common <= sums.fstSq * sums.sndSq
  {
    var merged: CosSums;
    ghost var steps: nat;
    cos, merged, steps := CosBetweenTwoUsers(fst, snd, finish);
    var fstSumMarksSqr := SumOfSquares(fst);
    var sndSumMarksSqr := SumOfSquares(snd);
    sums := CosSums(fstSumMarksSqr, sndSumMarksSqr, merged.common);
    var vf, vs := Visited(fst, snd), Visited(snd, fst);
    SumSqPrefixMonotone(fst, vf, |fst|);
    SumSqPrefixMonotone(snd, vs, |snd|);
    assert fst[..|fst|] == fst && snd[..|snd|] == snd;
    MulMonotone(merged.fstSq, fstSumMarksSqr, merged.sndSq);
    MulMonotone(merged.sndSq, sndSumMarksSqr, fstSumMarksSqr);
    if fst != [] && snd != [] {
      cos := finish(sums);
    }
  }

  /** The whole-vector sums are symmetric: swapping the users swaps the two norms. */
  lemma FullSumsSymmetric(fst: UserInfo, snd: UserInfo)
    requires Sorted(fst) && Sorted(snd)
    ensures FullSums(snd, fst) == CosSums(SumSq(snd), SumSq(fst), Dot(fst, snd))
  {
    SortedIsUnique(fst);
    SortedIsUnique(snd);
    DotSymmetric(fst, snd);
  }

  /** A user against itself: all three whole-vector sums are the same, so an exact cosine is 1. */
  lemma FullSumsSelf(u: UserInfo)
    requires Sorted(u)
    ensures FullSums(u, u) == CosSums(SumSq(u), SumSq(u), SumSq(u))
  {
    SortedIsUnique(u);
    DotSelfPrefix(u, |u|);
    assert u[..|u|] == u;
  }
}
