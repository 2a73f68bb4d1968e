/**
 Songs, play counts and per-user listening vectors (recommender.h).

 A user's vector is loaded in strictly increasing song order; the similarity
 merge relies on that order, which is std::string's lexicographic `operator<`
 (Dafny's `<` on sequences means "proper prefix", so it is defined here).
 */
module Songs {

  /** A song identifier (a std::string in the source). */
  type SongID = string

  /** One (song, play count) entry; the source's pair<SongID, size_t>. */
  datatype SongScore = SongScore(song: SongID, score: nat)

  /** One user's listening history (UserInfoVector). */
  type UserInfo = seq<SongScore>

  /** std::string's `operator<`: lexicographic order on characters. */
  predicate Lt(a: SongID, b: SongID)
  {
    if b == [] then false
    else if a == [] then true
    else if a[0] != b[0] then a[0] < b[0]
    else Lt(a[1..], b[1..])
  }

  lemma LtIrreflexive(a: SongID)
    ensures !Lt(a, a)
  {
    if a != [] {
      LtIrreflexive(a[1..]);
    }
  }

  lemma LtTransitive(a: SongID, b: SongID, c: SongID)
    requires Lt(a, b) && Lt(b, c)
    ensures Lt(a, c)
  {
    if a != [] && a[0] == b[0] && b[0] == c[0] {
      LtTransitive(a[1..], b[1..], c[1..]);
    }
  }

  lemma LtTrichotomy(a: SongID, b: SongID)
    ensures a == b || Lt(a, b) || Lt(b, a)
  {
    if a != [] && b != [] && a[0] == b[0] {
      LtTrichotomy(a[1..], b[1..]);
      if a[1..] == b[1..] {
        assert a == [a[0]] + a[1..] && b == [b[0]] + b[1..];
      }
    }
  }

  lemma LtAsymmetric(a: SongID, b: SongID)
    requires Lt(a, b)
    ensures !Lt(b, a) && a != b
  {
    LtIrreflexive(a);
    if Lt(b, a) {
      LtTransitive(a, b, a);
    }
  }

  /** The load-time invariant of a user vector: strictly increasing song IDs. */
  predicate Sorted(u: UserInfo)
  {
    forall p, q :: 0 <= p < q < |u| ==> Lt(u[p].song, u[q].song)
  }

  /** No song occurs twice. */
  predicate Unique(u: UserInfo)
  {
    forall p, q :: 0 <= p < q < |u| ==> u[p].song != u[q].song
  }

  lemma SortedIsUnique(u: UserInfo)
    requires Sorted(u)
    ensures Unique(u)
  {
    forall p, q | 0 <= p < q < |u|
      ensures u[p].song != u[q].song
    {
      LtAsymmetric(u[p].song, u[q].song);
    }
  }

  /** `std::find_if(u, song) != u.end()`. */
  predicate Contains(u: UserInfo, song: SongID)
  {
    exists p :: 0 <= p < |u| && u[p].song == song
  }

  /** The score of the first entry for `song` (what `find_if` reaches), or 0 when absent. */
  function ScoreOf(u: UserInfo, song: SongID): nat
  {
    if u == [] then 0
    else if u[0].song == song then u[0].score
    else ScoreOf(u[1..], song)
  }

  /** A positive score is only ever found for a song the user has. */
  lemma {:induction false} ScoreOfPositive(u: UserInfo, song: SongID)
    ensures ScoreOf(u, song) > 0 ==> Contains(u, song)
  {
    if u != [] && u[0].song != song {
      ScoreOfPositive(u[1..], song);
      if ScoreOf(u, song) > 0 {
        var p :| 0 <= p < |u[1..]| && u[1..][p].song == song;
        assert u[p + 1].song == song;
      }
    }
  }

  function Last<T>(s: seq<T>): T
    requires s != []
  {
    s[|s| - 1]
  }

  function DropLast<T>(s: seq<T>): seq<T>
    requires s != []
  {
    s[..|s| - 1]
  }

  /** The entry at position j is the first one for its song, so `find_if` reaches it. */
  lemma {:induction false} ScoreOfAt(u: UserInfo, j: nat, song: SongID)
    requires j < |u| && u[j].song == song
    requires forall q :: 0 <= q < j ==> u[q].song != song
    ensures ScoreOf(u, song) == u[j].score
  {
    if j > 0 {
      ScoreOfAt(u[1..], j - 1, song);
    }
  }

  /** An absent song scores 0, and `find_if` reaches the end exactly then. */
  lemma {:induction false} ScoreOfAbsent(u: UserInfo, song: SongID)
    requires !Contains(u, song)
    ensures ScoreOf(u, song) == 0
  {
    if u != [] {
      ScoreOfAbsent(u[1..], song);
    }
  }

  /** In a vector without repeated songs, each entry's own score is what a lookup finds. */
  lemma ScoreOfOwnEntry(u: UserInfo, j: nat)
    requires Unique(u) && j < |u|
    ensures ScoreOf(u, u[j].song) == u[j].score
  {
    ScoreOfAt(u, j, u[j].song);
  }

  /** Appending an entry for a new song adds its score to that song's lookup only. */
  lemma {:induction false} ScoreOfAppendNew(u: UserInfo, x: SongScore, song: SongID)
    requires !Contains(u, x.song)
    ensures ScoreOf(u + [x], song) == ScoreOf(u, song) + (if x.song == song then x.score else 0)
  {
    if u == [] {
    } else {
      assert (u + [x])[1..] == u[1..] + [x];
      if u[0].song != song {
        ScoreOfAppendNew(u[1..], x, song);
      } else {
        assert u[0].song != x.song;
      }
    }
  }
}
