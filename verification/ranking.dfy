/** The ranking order: `list.sort(key=score, reverse=True)`, a stable sort
    by score, highest first, in which leads with equal scores keep their
    relative order. */
module Ranking {
  import opened LeadRecord
  import opened SeqFacts

  /** Scores never increase along the sequence. */
  predicate SortedByScore(s: seq<Lead>) {
    forall i, j :: 0 <= i < j < |s| ==> s[i].score >= s[j].score
  }

  /** The leads of `s` that score `k`, in their order in `s`. A sort is
      stable exactly when it keeps every one of these subsequences. */
  function ScoreClass(s: seq<Lead>, k: int): (r: seq<Lead>)
    ensures |r| <= |s|
    ensures forall i :: 0 <= i < |r| ==> r[i].score == k
  {
    if s == [] then []
    else if s[0].score == k then [s[0]] + ScoreClass(s[1..], k)
    else ScoreClass(s[1..], k)
  }

  /** Inserts `x` into a sorted sequence ahead of every lead that scores no
      more than it, so ahead of the leads that tie with it. */
  function Insert(x: Lead, s: seq<Lead>): (r: seq<Lead>)
    requires SortedByScore(s)
    ensures SortedByScore(r)
    ensures |r| == |s| + 1
    ensures r[0] == x || (s != [] && r[0] == s[0])
  {
    if s == [] || x.score >= s[0].score then [x] + s
    else
      var t := Insert(x, s[1..]);
      assert s == [s[0]] + s[1..];
      [s[0]] + t
  }

  lemma {:induction false} InsertPermutes(x: Lead, s: seq<Lead>)
    requires SortedByScore(s)
    ensures multiset(Insert(x, s)) == multiset(s) + multiset{x}
  {
    if s != [] && x.score < s[0].score {
      InsertPermutes(x, s[1..]);
      MultisetCons(s);
      MultisetCons(Insert(x, s));
    } else {
      MultisetCons(Insert(x, s));
    }
  }

  /** The stable descending sort. Its result is ordered by score; that it
      is a permutation is `SortPermutes`, that it is stable `SortStable`. */
  function SortByScore(s: seq<Lead>): (r: seq<Lead>)
    ensures SortedByScore(r)
    ensures |r| == |s|
  {
    if s == [] then [] else Insert(s[0], SortByScore(s[1..]))
  }

  /** Sorting only reorders: the result holds the same leads, each as often. */
  lemma {:induction false} SortPermutes(s: seq<Lead>)
    ensures multiset(SortByScore(s)) == multiset(s)
  {
    if s != [] {
      var t := SortByScore(s[1..]);
      assert SortByScore(s) == Insert(s[0], t);
      SortPermutes(s[1..]);
      InsertPermutes(s[0], t);
      MultisetCons(s);
    }
  }

  /** Inserting `x` puts it at the head of its score class. */
  lemma {:induction false} InsertScoreClass(x: Lead, s: seq<Lead>, k: int)
    requires SortedByScore(s)
    ensures ScoreClass(Insert(x, s), k) == (if x.score == k then [x] else []) + ScoreClass(s, k)
  {
    if s == [] || x.score >= s[0].score {
      ClassOfCons(x, s, k);
    } else {
      var t := s[1..];
      assert Insert(x, s) == [s[0]] + Insert(x, t);
      ClassOfCons(s[0], Insert(x, t), k);
      InsertScoreClass(x, t, k);
      ClassOfCons(s[0], t, k);
      assert s == [s[0]] + t;
    }
  }

  /** The score class of a sequence with a lead in front. */
  lemma ClassOfCons(y: Lead, t: seq<Lead>, k: int)
    ensures ScoreClass([y] + t, k) == (if y.score == k then [y] else []) + ScoreClass(t, k)
  {
    assert ([y] + t)[1..] == t;
  }

  /** Stability: sorting keeps, for every score, the relative order of the
      leads with that score. */
  lemma {:induction false} SortStable(s: seq<Lead>, k: int)
    ensures ScoreClass(SortByScore(s), k) == ScoreClass(s, k)
  {
    if s != [] {
      SortStable(s[1..], k);
      InsertScoreClass(s[0], SortByScore(s[1..]), k);
    }
  }

  /** A sequence that is already ordered is left as it is. */
  lemma {:induction false} SortOfSorted(s: seq<Lead>)
    requires SortedByScore(s)
    ensures SortByScore(s) == s
  {
    if s != [] {
      SortOfSorted(s[1..]);
      assert s == [s[0]] + s[1..];
    }
  }

  /** Sorting twice is sorting once. */
  lemma SortIdempotent(s: seq<Lead>)
    ensures SortByScore(SortByScore(s)) == SortByScore(s)
  {
    SortOfSorted(SortByScore(s));
  }

  /** The number of leading leads that score at least `v`: for a sorted
      sequence, the place where a lead scoring `v` goes after every lead it
      ties with. */
  function PlaceOf(s: seq<Lead>, v: int): (n: nat)
    ensures n <= |s|
    ensures forall i :: 0 <= i < n ==> s[i].score >= v
    ensures n < |s| ==> s[n].score < v
    ensures SortedByScore(s) ==> forall i :: n <= i < |s| ==> s[i].score < v
  {
    if s == [] || s[0].score < v then 0 else 1 + PlaceOf(s[1..], v)
  }

  /** Sorting a sorted sequence with one lead appended puts that lead after
      every lead scoring at least as much and before the rest. */
  lemma {:induction false} SortAppended(s: seq<Lead>, x: Lead)
    requires SortedByScore(s)
    ensures var k := PlaceOf(s, x.score); SortByScore(s + [x]) == s[..k] + [x] + s[k..]
  {
    if s == [] {
      assert SortByScore([x]) == Insert(x, []);
    } else {
      var t := s[1..];
      SortAppendedCons(s, x);
      SortAppended(t, x);
      var k' := PlaceOf(t, x.score);
      var u := t[..k'] + [x] + t[k'..];
      if s[0].score >= x.score {
        InsertAhead(s, x, u, k');
      } else {
        InsertBehind(s, x, u);
      }
    }
  }

  lemma SortAppendedCons(s: seq<Lead>, x: Lead)
    requires s != []
    ensures SortByScore(s + [x]) == Insert(s[0], SortByScore(s[1..] + [x]))
  {
    ConsOfAppend(s, [x]);
    SortUnfold(s + [x]);
  }

  lemma SortUnfold(t: seq<Lead>)
    requires t != []
    ensures SortByScore(t) == Insert(t[0], SortByScore(t[1..]))
  {
  }

  lemma InsertAhead(s: seq<Lead>, x: Lead, u: seq<Lead>, k': nat)
    requires s != [] && SortedByScore(s) && s[0].score >= x.score
    requires k' == PlaceOf(s[1..], x.score)
    requires u == s[1..][..k'] + [x] + s[1..][k'..]
    ensures Insert(s[0], u) == s[..k' + 1] + [x] + s[k' + 1..]
  {
    assert s[0].score >= u[0].score by {
      if k' > 0 { assert u[0] == s[1]; } else { assert u[0] == x; }
    }
    assert Insert(s[0], u) == [s[0]] + u;
    ConsSplit(s, x, k');
  }

  lemma InsertBehind(s: seq<Lead>, x: Lead, u: seq<Lead>)
    requires s != [] && SortedByScore(s) && s[0].score < x.score
    requires u == s[1..][..PlaceOf(s[1..], x.score)] + [x] + s[1..][PlaceOf(s[1..], x.score)..]
    ensures Insert(s[0], u) == [x] + s
  {
    assert PlaceOf(s[1..], x.score) == 0;
    assert u == [x] + s[1..];
    assert u[1..] == s[1..];
    assert Insert(s[0], u) == [x] + Insert(s[0], s[1..]);
    assert Insert(s[0], s[1..]) == [s[0]] + s[1..];
    assert s == [s[0]] + s[1..];
  }

  /** The sorted, stable permutation is unique: two sorted sequences with
      the same score classes are equal. So `SortByScore` is the one result
      the `list.sort` of LeadRank's appV2.py can produce. */
  lemma {:induction false} SortedStableUnique(a: seq<Lead>, b: seq<Lead>)
    requires SortedByScore(a) && SortedByScore(b)
    requires forall k :: ScoreClass(a, k) == ScoreClass(b, k)
    ensures a == b
  {
    if a != [] {
      assert ScoreClass(a, a[0].score) != [];
      assert b != [];
      assert ScoreClass(b, b[0].score) != [];
      ClassMember(a, b[0].score);
      ClassMember(b, a[0].score);
      var m := a[0].score;
      assert b[0].score == m;
      assert ScoreClass(a, m)[0] == a[0];
      assert ScoreClass(b, m)[0] == b[0];
      forall k
        ensures ScoreClass(a[1..], k) == ScoreClass(b[1..], k)
      {
        assert ScoreClass(a, k) == ScoreClass(b, k);
        if k == m {
          assert ScoreClass(a[1..], k) == ScoreClass(a, k)[1..];
          assert ScoreClass(b[1..], k) == ScoreClass(b, k)[1..];
        } else {
          assert ScoreClass(a, k) == ScoreClass(a[1..], k);
          assert ScoreClass(b, k) == ScoreClass(b[1..], k);
        }
      }
      SortedStableUnique(a[1..], b[1..]);
      assert a == [a[0]] + a[1..];
      assert b == [b[0]] + b[1..];
    }
  }

  /** In a sorted sequence, a non-empty score class has its score at most
      the head's score. */
  lemma {:induction false} ClassMember(s: seq<Lead>, k: int)
    requires SortedByScore(s) && ScoreClass(s, k) != []
    ensures s != [] && s[0].score >= k
  {
    if s != [] && s[0].score != k {
      ClassMember(s[1..], k);
      assert s[1..][0] == s[1];
    }
  }

  /** A sort result is characterized by its contract: any sorted sequence
      that keeps every score class of `s` is `SortByScore(s)`. */
  lemma SortCharacterized(s: seq<Lead>, r: seq<Lead>)
    requires SortedByScore(r)
    requires forall k :: ScoreClass(r, k) == ScoreClass(s, k)
    ensures r == SortByScore(s)
  {
    forall k ensures ScoreClass(SortByScore(s), k) == ScoreClass(r, k) {
      SortStable(s, k);
    }
    SortedStableUnique(r, SortByScore(s));
  }
}
