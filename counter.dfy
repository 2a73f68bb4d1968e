/**
 The recommendation counter `timesRecommended` of crossValidateNDCGandGini
 (crossValidation.h): an unordered_map from song to how many times it was
 recommended. Its total and its multiset of counts are defined without an
 iteration order, since unordered_map has none.
 */
module Counter {
  import opened Songs

  /** `timesRecommended`: song -> number of recommendations. */
  type Counts = map<SongID, nat>

  /** The for_each at the start of the harness: every catalog song mapped to 0. */
  function InitialCounter(songs: seq<SongID>): (m: Counts)
    ensures m.Keys == set s | s in songs
    ensures forall s :: s in m ==> m[s] == 0
  {
    map s | s in songs :: 0
  }

  /** `timesRecommended[song] += 1`; operator[] inserts a 0 first for a new song. */
  function Increment(m: Counts, song: SongID): (r: Counts)
    ensures r.Keys == m.Keys + {song}
    ensures CountOf(r, song) == CountOf(m, song) + 1
    ensures forall s :: s != song ==> CountOf(r, s) == CountOf(m, s)
  {
    m[song := CountOf(m, song) + 1]
  }

  /** One increment per recommended song, in order. */
  function Tally(m: Counts, recommended: seq<SongScore>): Counts
  {
    if recommended == [] then m else Increment(Tally(m, DropLast(recommended)), Last(recommended).song)
  }

  lemma RemoveKeySize(m: Counts, k: SongID)
    requires k in m
    ensures |m - {k}| == |m| - 1
  {
    assert (m - {k}).Keys == m.Keys - {k};
  }

  /** Sum of all counts. */
  ghost function Total(m: Counts): nat
    decreases |m|
  {
    if m == map[] then 0
    else
      var k :| k in m;
      RemoveKeySize(m, k);
      m[k] + Total(m - {k})
  }

  /** The multiset of counts, the only thing Gini looks at. */
  ghost function CountsOf(m: Counts): multiset<nat>
    decreases |m|
  {
    if m == map[] then multiset{}
    else
      var k :| k in m;
      RemoveKeySize(m, k);
      multiset{m[k]} + CountsOf(m - {k})
  }

  lemma MapRemoveSwap(m: Counts, a: SongID, b: SongID)
    ensures m - {a} - {b} == m - {b} - {a}
  {
  }

  /** Total does not depend on which key is taken out first. */
  lemma {:induction false} TotalRemove(m: Counts, k: SongID)
    requires k in m
    ensures Total(m) == m[k] + Total(m - {k})
    decreases |m|
  {
    var k' :| k' in m && Total(m) == m[k'] + Total(m - {k'});
    if k' != k {
      RemoveKeySize(m, k);
      RemoveKeySize(m, k');
      TotalRemove(m - {k'}, k);
      TotalRemove(m - {k}, k');
      MapRemoveSwap(m, k, k');
    }
  }

  /** The multiset of counts does not depend on which key is taken out first. */
  lemma {:induction false} CountsOfRemove(m: Counts, k: SongID)
    requires k in m
    ensures CountsOf(m) == multiset{m[k]} + CountsOf(m - {k})
    decreases |m|
  {
    var k' :| k' in m && CountsOf(m) == multiset{m[k']} + CountsOf(m - {k'});
    if k' != k {
      RemoveKeySize(m, k);
      RemoveKeySize(m, k');
      CountsOfRemove(m - {k'}, k);
      CountsOfRemove(m - {k}, k');
      MapRemoveSwap(m, k, k');
    }
  }

  /** There is one count per song. */
  lemma {:induction false} CountsOfSize(m: Counts)
    ensures |CountsOf(m)| == |m|
    decreases |m|
  {
    if m != map[] {
      var k :| k in m;
      CountsOfRemove(m, k);
      RemoveKeySize(m, k);
      CountsOfSize(m - {k});
    }
  }

  /** A counter that is 0 everywhere totals 0. */
  lemma {:induction false} TotalOfZeros(m: Counts)
    requires forall s :: s in m ==> m[s] == 0
    ensures Total(m) == 0
    decreases |m|
  {
    if m != map[] {
      var k :| k in m;
      TotalRemove(m, k);
      RemoveKeySize(m, k);
      TotalOfZeros(m - {k});
    }
  }

  /** Each increment adds exactly one to the total, whether the song was present or not. */
  lemma TotalIncrement(m: Counts, song: SongID)
    ensures Total(Increment(m, song)) == Total(m) + 1
  {
    var r := Increment(m, song);
    TotalRemove(r, song);
    if song in m {
      TotalRemove(m, song);
      assert r - {song} == m - {song};
    } else {
      assert r - {song} == m;
    }
  }

  /** Tallying n recommendations adds n to the total. */
  lemma {:induction false} TotalTally(m: Counts, recommended: seq<SongScore>)
    ensures Total(Tally(m, recommended)) == Total(m) + |recommended|
  {
    if recommended != [] {
      TotalTally(m, DropLast(recommended));
      TotalIncrement(Tally(m, DropLast(recommended)), Last(recommended).song);
    }
  }

  /** A song's count grows by the number of times it is recommended; the set of songs only grows. */
  lemma {:induction false} TallyCounts(m: Counts, recommended: seq<SongScore>, song: SongID)
    ensures (set p | p in recommended :: p.song) + m.Keys == Tally(m, recommended).Keys
    ensures CountOf(Tally(m, recommended), song) == CountOf(m, song) + Occurrences(recommended, song)
  {
    if recommended != [] {
      var rest, x := DropLast(recommended), Last(recommended);
      TallyCounts(m, rest, song);
      var before := Tally(m, rest);
      assert Tally(m, recommended) == Increment(before, x.song);
      assert Occurrences(recommended, song) == Occurrences(rest, song) + (if x.song == song then 1 else 0);
      assert recommended == rest + [x];
      SongsOfAppend(rest, x);
    }
  }

  lemma SongsOfAppend(rest: seq<SongScore>, x: SongScore)
    ensures (set p | p in rest + [x] :: p.song) == (set p | p in rest :: p.song) + {x.song}
  {
  }

  /** The count of a song, 0 for a song the map does not hold. */
  function CountOf(m: Counts, song: SongID): nat
  {
    if song in m then m[song] else 0
  }

  /** How many entries recommend `song`. */
  function Occurrences(recommended: seq<SongScore>, song: SongID): nat
  {
    if recommended == [] then 0
    else Occurrences(DropLast(recommended), song) + (if Last(recommended).song == song then 1 else 0)
  }
}
