/**
 * Re-ranking of the displayed results by one score field: a stable sort in
 * descending order of the chosen score, computed from the current list alone.
 */
module Ranking {
  import opened Wrappers
  import opened Search

  /** The ranking dimensions offered by the selector. */
  datatype Dimension = Final | Audio | Text

  /** The selector value naming a dimension; any other string names none. */
  function ParseDimension(value: string): Option<Dimension> {
    if value == "final" then Some(Final)
    else if value == "audio" then Some(Audio)
    else if value == "text" then Some(Text)
    else None
  }

  /** The score field a dimension sorts by. */
  function Score(c: Candidate, d: Dimension): real {
    match d
    case Final => c.finalScore
    case Audio => c.audioScore
    case Text => c.textScore
  }

  /** Non-increasing in the score of dimension d. */
  ghost predicate SortedDesc(s: seq<Candidate>, d: Dimension) {
    forall i, j :: 0 <= i < j < |s| ==> Score(s[i], d) >= Score(s[j], d)
  }

  /** The elements of s whose score under d is k, in their order in s. */
  function WithScore(s: seq<Candidate>, d: Dimension, k: real): seq<Candidate> {
    if s == [] then []
    else (if Score(s[0], d) == k then [s[0]] else []) + WithScore(s[1..], d, k)
  }

  /** A sort is stable when each group of equal scores keeps its relative order. */
  ghost predicate SameTies(r: seq<Candidate>, s: seq<Candidate>, d: Dimension) {
    forall k :: WithScore(r, d, k) == WithScore(s, d, k)
  }

  /**
   * Places x in front of the first element of t whose score is not above x's:
   * x goes before every element of equal score, which keeps an earlier element
   * ahead of later ones with the same score.
   */
  function Insert(x: Candidate, t: seq<Candidate>, d: Dimension): seq<Candidate>
    decreases |t|
  {
    if t == [] then [x]
    else if Score(t[0], d) > Score(x, d) then [t[0]] + Insert(x, t[1..], d)
    else [x] + t
  }

  /** The comparator sort `(a, b) => b.score - a.score` as a stable insertion sort. */
  function SortByScore(s: seq<Candidate>, d: Dimension): seq<Candidate>
    decreases |s|
  {
    if s == [] then [] else Insert(s[0], SortByScore(s[1..], d), d)
  }

  lemma {:induction false} InsertPermutation(x: Candidate, t: seq<Candidate>, d: Dimension)
    ensures multiset(Insert(x, t, d)) == multiset{x} + multiset(t)
    decreases |t|
  {
    if t != [] && Score(t[0], d) > Score(x, d) {
      InsertPermutation(x, t[1..], d);
      assert t == [t[0]] + t[1..];
    }
  }

  lemma {:induction false} InsertSorted(x: Candidate, t: seq<Candidate>, d: Dimension)
    requires SortedDesc(t, d)
    ensures SortedDesc(Insert(x, t, d), d)
    decreases |t|
  {
    if t != [] && Score(t[0], d) > Score(x, d) {
      var u := Insert(x, t[1..], d);
      InsertSorted(x, t[1..], d);
      assert u[0] == x || (|t| > 1 && u[0] == t[1]);
      var r := [t[0]] + u;
      forall i, j | 0 <= i < j < |r| ensures Score(r[i], d) >= Score(r[j], d) {
        if i == 0 {
          assert Score(t[0], d) >= Score(u[0], d);
          assert r[j] == u[j - 1];
        } else {
          assert r[i] == u[i - 1] && r[j] == u[j - 1];
        }
      }
    } else if t != [] {
      var r := [x] + t;
      forall i, j | 0 <= i < j < |r| ensures Score(r[i], d) >= Score(r[j], d) {
        if i == 0 {
          assert r[j] == t[j - 1];
        } else {
          assert r[i] == t[i - 1] && r[j] == t[j - 1];
        }
      }
    }
  }

  lemma {:induction false} InsertTies(x: Candidate, t: seq<Candidate>, d: Dimension, k: real)
    ensures WithScore(Insert(x, t, d), d, k) == WithScore([x] + t, d, k)
    decreases |t|
  {
    if t != [] && Score(t[0], d) > Score(x, d) {
      InsertTies(x, t[1..], d, k);
      var u := Insert(x, t[1..], d);
      assert ([t[0]] + u)[1..] == u;
      assert ([x] + t)[1..] == t;
      assert ([x] + t[1..])[1..] == t[1..];
    }
  }

  /** Re-ranking only reorders: the result is a permutation of the list. */
  lemma {:induction false} SortByScorePermutation(s: seq<Candidate>, d: Dimension)
    ensures multiset(SortByScore(s, d)) == multiset(s)
    decreases |s|
  {
    if s != [] {
      SortByScorePermutation(s[1..], d);
      InsertPermutation(s[0], SortByScore(s[1..], d), d);
      assert s == [s[0]] + s[1..];
    }
  }

  /** Re-ranking yields descending order of the chosen score. */
  lemma {:induction false} SortByScoreSorted(s: seq<Candidate>, d: Dimension)
    ensures SortedDesc(SortByScore(s, d), d)
    decreases |s|
  {
    if s != [] {
      SortByScoreSorted(s[1..], d);
      InsertSorted(s[0], SortByScore(s[1..], d), d);
    }
  }

  /** Re-ranking is stable: candidates with equal scores keep their prior relative order. */
  lemma {:induction false} SortByScoreStable(s: seq<Candidate>, d: Dimension)
    ensures SameTies(SortByScore(s, d), s, d)
    decreases |s|
  {
    if s != [] {
      SortByScoreStable(s[1..], d);
      var t := SortByScore(s[1..], d);
      forall k ensures WithScore(SortByScore(s, d), d, k) == WithScore(s, d, k) {
        InsertTies(s[0], t, d, k);
        assert ([s[0]] + t)[1..] == t;
      }
    }
  }

  /** A list already in descending order is left as it is. */
  lemma {:induction false} SortByScoreOfSorted(s: seq<Candidate>, d: Dimension)
    requires SortedDesc(s, d)
    ensures SortByScore(s, d) == s
    decreases |s|
  {
    if s != [] {
      assert SortedDesc(s[1..], d) by {
        forall i, j | 0 <= i < j < |s[1..]| ensures Score(s[1..][i], d) >= Score(s[1..][j], d) {
          assert s[1..][i] == s[i + 1] && s[1..][j] == s[j + 1];
        }
      }
      SortByScoreOfSorted(s[1..], d);
      assert s == [s[0]] + s[1..];
    }
  }

  /** Selecting the same dimension twice gives the same list as selecting it once. */
  lemma SortByScoreIdempotent(s: seq<Candidate>, d: Dimension)
    ensures SortByScore(SortByScore(s, d), d) == SortByScore(s, d)
  {
    SortByScoreSorted(s, d);
    SortByScoreOfSorted(SortByScore(s, d), d);
  }

  /**
   * Two results with final scores 900 and 950 and text scores 80 and 60: by text
   * the one scoring 80 comes first, by final score the one scoring 950 does.
   */
  lemma RankingExample(x: Candidate, y: Candidate)
    requires x.finalScore == 900.0 && x.textScore == 80.0
    requires y.finalScore == 950.0 && y.textScore == 60.0
    ensures SortByScore([x, y], Text) == [x, y]
    ensures SortByScore([x, y], Final) == [y, x]
  {
    assert [x, y][1..] == [y];
    assert [y][1..] == [];
    assert SortByScore([y], Text) == [y] && SortByScore([y], Final) == [y];
    assert Insert(x, [y], Text) == [x] + [y];
    assert Insert(x, [y], Final) == [y] + Insert(x, [], Final);
  }
}
