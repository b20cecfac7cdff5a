/** The ranking step of the fuzzy fallback (books.py lines 255-260): the
    candidates that scored are ordered by `list.sort(key=score, reverse=True)`,
    which is a stable sort, so candidates with equal scores keep their list
    order, and the first candidate after sorting is taken. */
module Ranking {
  import opened Wrappers

  /** A candidate paired with the score it was given. */
  datatype Scored<T> = Scored(item: T, score: nat)

  predicate SortedByScore<T>(s: seq<Scored<T>>) {
    forall i, j | 0 <= i < j < |s| :: s[i].score >= s[j].score
  }

  /** `x` placed into the descending list `s` ahead of every element whose
      score is not above its own. */
  function Insert<T>(x: Scored<T>, s: seq<Scored<T>>): (r: seq<Scored<T>>)
    requires SortedByScore(s)
    ensures SortedByScore(r)
    ensures multiset(r) == multiset(s) + multiset{x}
    ensures |r| == |s| + 1
    ensures r[0] == x || (|s| > 0 && r[0] == s[0])
  {
    if |s| == 0 || x.score >= s[0].score then
      ConsSorted(x, s);
      [x] + s
    else
      var tail := Insert(x, s[1..]);
      ConsSorted(s[0], tail);
      assert s == [s[0]] + s[1..];
      [s[0]] + tail
  }

  lemma ConsSorted<T>(a: Scored<T>, s: seq<Scored<T>>)
    requires SortedByScore(s)
    requires |s| == 0 || a.score >= s[0].score
    ensures SortedByScore([a] + s)
  {
    var r := [a] + s;
    forall i, j | 0 <= i < j < |r| ensures r[i].score >= r[j].score {
      if i == 0 && j > 1 {
        assert r[j] == s[j - 1];
      }
    }
  }

  /** `candidates.sort(key=score, reverse=True)`: insertion sort from the back,
      each earlier candidate going ahead of the later ones it ties with. */
  function SortByScore<T>(candidates: seq<Scored<T>>): (r: seq<Scored<T>>)
    ensures SortedByScore(r)
    ensures multiset(r) == multiset(candidates)
    ensures |r| == |candidates|
  {
    if |candidates| == 0 then []
    else
      assert candidates == [candidates[0]] + candidates[1..];
      Insert(candidates[0], SortByScore(candidates[1..]))
  }

  /** The candidates of `s` with score `v`, in order. */
  function WithScore<T>(s: seq<Scored<T>>, v: nat): (r: seq<Scored<T>>)
    ensures |r| <= |s|
  {
    if |s| == 0 then []
    else (if s[0].score == v then [s[0]] else []) + WithScore(s[1..], v)
  }

  /** `WithScore` keeps exactly the candidates with score `v`. */
  lemma {:induction false} WithScoreIsFilter<T>(s: seq<Scored<T>>, v: nat)
    ensures forall i | 0 <= i < |WithScore(s, v)| :: WithScore(s, v)[i] in s && WithScore(s, v)[i].score == v
    ensures forall i | 0 <= i < |s| :: s[i].score == v ==> s[i] in WithScore(s, v)
    decreases |s|
  {
    if |s| > 0 {
      WithScoreIsFilter(s[1..], v);
      assert forall i | 1 <= i < |s| :: s[i] == s[1..][i - 1];
    }
  }

  lemma WithScoreOfCons<T>(a: Scored<T>, s: seq<Scored<T>>, v: nat)
    ensures WithScore([a] + s, v) == (if a.score == v then [a] else []) + WithScore(s, v)
  {
    assert ([a] + s)[1..] == s;
  }

  lemma {:induction false} InsertKeepsTies<T>(x: Scored<T>, s: seq<Scored<T>>, v: nat)
    requires SortedByScore(s)
    ensures WithScore(Insert(x, s), v) == (if x.score == v then [x] else []) + WithScore(s, v)
    decreases |s|
  {
    if |s| == 0 || x.score >= s[0].score {
      WithScoreOfCons(x, s, v);
    } else {
      InsertKeepsTies(x, s[1..], v);
      WithScoreOfCons(s[0], Insert(x, s[1..]), v);
      WithScoreOfCons(s[0], s[1..], v);
      assert s == [s[0]] + s[1..];
    }
  }

  /** The sort is stable: for every score, the candidates with that score come
      out in the order they went in. */
  lemma {:induction false} SortIsStable<T>(candidates: seq<Scored<T>>, v: nat)
    ensures WithScore(SortByScore(candidates), v) == WithScore(candidates, v)
    decreases |candidates|
  {
    if |candidates| > 0 {
      SortIsStable(candidates[1..], v);
      InsertKeepsTies(candidates[0], SortByScore(candidates[1..]), v);
    }
  }

  /** `k` is the first position holding the highest score of `s`. */
  predicate IsEarliestBest<T>(s: seq<Scored<T>>, k: int) {
    && 0 <= k < |s|
    && (forall j | 0 <= j < |s| :: s[j].score <= s[k].score)
    && (forall j | 0 <= j < k :: s[j].score < s[k].score)
  }

  /** Sorting brings in no score above a bound that every candidate keeps. */
  lemma SortKeepsBound<T>(candidates: seq<Scored<T>>, b: nat)
    requires forall j | 0 <= j < |candidates| :: candidates[j].score <= b
    ensures forall j | 0 <= j < |candidates| :: SortByScore(candidates)[j].score <= b
  {
    var r := SortByScore(candidates);
    forall j | 0 <= j < |r| ensures r[j].score <= b {
      assert r[j] in multiset(candidates);
    }
  }

  /** After sorting, the head is the earliest candidate with the highest score. */
  lemma {:induction false} SortHead<T>(candidates: seq<Scored<T>>, k: int)
    requires IsEarliestBest(candidates, k)
    ensures SortByScore(candidates)[0] == candidates[k]
    decreases |candidates|
  {
    var rest := SortByScore(candidates[1..]);
    if k == 0 {
      SortKeepsBound(candidates[1..], candidates[0].score);
    } else {
      SortHead(candidates[1..], k - 1);
    }
  }

  /** Every list with an element has exactly one earliest best position. */
  lemma {:induction false} EarliestBestExists<T>(s: seq<Scored<T>>) returns (k: int)
    requires |s| > 0
    ensures IsEarliestBest(s, k)
    ensures forall k' | IsEarliestBest(s, k') :: k' == k
    decreases |s|
  {
    if |s| == 1 {
      k := 0;
    } else {
      var k1 := EarliestBestExists(s[1..]);
      if s[0].score >= s[k1 + 1].score {
        k := 0;
      } else {
        k := k1 + 1;
        assert forall j | 1 <= j < |s| :: s[j].score <= s[k].score by {
          forall j | 1 <= j < |s| ensures s[j].score <= s[k].score {
            assert s[1..][j - 1] == s[j];
          }
        }
        forall k' | IsEarliestBest(s, k') ensures k' == k {
          if k' > 0 {
            assert IsEarliestBest(s[1..], k' - 1);
          }
        }
      }
    }
  }

  /** The candidates with a non-zero score, in order: `if score:
      suggestions.append(...)`. */
  function Positive<T>(s: seq<Scored<T>>): (r: seq<Scored<T>>)
    ensures forall i | 0 <= i < |r| :: r[i].score > 0
    ensures |r| == 0 <==> forall i | 0 <= i < |s| :: s[i].score == 0
  {
    if |s| == 0 then []
    else
      var rest := Positive(s[1..]);
      assert forall i | 1 <= i < |s| :: s[i] == s[1..][i - 1];
      (if s[0].score > 0 then [s[0]] else []) + rest
  }

  /** Filtering keeps only candidates of the list. */
  lemma {:induction false} PositiveIsSublist<T>(s: seq<Scored<T>>)
    ensures forall i | 0 <= i < |Positive(s)| :: Positive(s)[i] in s
    decreases |s|
  {
    if |s| > 0 {
      PositiveIsSublist(s[1..]);
      assert forall x | x in s[1..] :: x in s;
    }
  }

  /** Filtering a list one candidate longer. */
  lemma {:induction false} PositiveOfSnoc<T>(s: seq<Scored<T>>, x: Scored<T>)
    ensures Positive(s + [x]) == Positive(s) + (if x.score > 0 then [x] else [])
    decreases |s|
  {
    if |s| == 0 {
      assert Positive([x][1..]) == [];
    } else {
      assert (s + [x])[1..] == s[1..] + [x];
      PositiveOfSnoc(s[1..], x);
    }
  }

  /** Dropping the zero scores keeps the earliest best candidate earliest
      best, as long as its score is not zero. */
  lemma {:induction false} PositiveKeepsEarliestBest<T>(s: seq<Scored<T>>, k: int) returns (p: int)
    requires IsEarliestBest(s, k) && s[k].score > 0
    ensures IsEarliestBest(Positive(s), p) && Positive(s)[p] == s[k]
    decreases |s|
  {
    var c := Positive(s);
    var c' := Positive(s[1..]);
    if k == 0 {
      p := 0;
      PositiveKeepsBestHead(s);
    } else {
      assert IsEarliestBest(s[1..], k - 1) by {
        assert forall j | 1 <= j < |s| :: s[j] == s[1..][j - 1];
      }
      var p' := PositiveKeepsEarliestBest(s[1..], k - 1);
      if s[0].score > 0 {
        assert c == [s[0]] + c';
        EarliestBestOfCons(s[0], c', p');
        p := p' + 1;
      } else {
        assert c == c';
        p := p';
      }
    }
  }

  /** A lower-scored candidate put in front keeps the earliest best where it is. */
  lemma EarliestBestOfCons<T>(a: Scored<T>, s: seq<Scored<T>>, k: int)
    requires IsEarliestBest(s, k) && a.score < s[k].score
    ensures IsEarliestBest([a] + s, k + 1) && ([a] + s)[k + 1] == s[k]
  {
    var r := [a] + s;
    assert forall j | 1 <= j < |r| :: r[j] == s[j - 1];
  }

  lemma PositiveKeepsBestHead<T>(s: seq<Scored<T>>)
    requires IsEarliestBest(s, 0) && s[0].score > 0
    ensures IsEarliestBest(Positive(s), 0) && Positive(s)[0] == s[0]
  {
    var c := Positive(s);
    PositiveIsSublist(s);
    forall j | 0 <= j < |c| ensures c[j].score <= s[0].score {
      assert c[j] in s;
    }
  }

  /** `suggestions.sort(key=score, reverse=True)` followed by
      `suggestions[0]` when the list is not empty: the candidate chosen among
      those that scored. */
  function TopScored<T>(s: seq<Scored<T>>): (r: Option<T>)
    ensures r.None? <==> forall i | 0 <= i < |s| :: s[i].score == 0
    ensures forall k | IsEarliestBest(s, k) && s[k].score > 0 :: r == Some(s[k].item)
  {
    var c := Positive(s);
    TopIsEarliestBest(s);
    if |c| == 0 then None else Some(SortByScore(c)[0].item)
  }

  lemma TopIsEarliestBest<T>(s: seq<Scored<T>>)
    ensures forall k | IsEarliestBest(s, k) && s[k].score > 0 ::
      |Positive(s)| > 0 && SortByScore(Positive(s))[0] == s[k]
  {
    forall k | IsEarliestBest(s, k) && s[k].score > 0
      ensures |Positive(s)| > 0 && SortByScore(Positive(s))[0] == s[k]
    {
      var p := PositiveKeepsEarliestBest(s, k);
      SortHead(Positive(s), p);
    }
  }
}
