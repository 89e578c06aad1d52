/** Small facts about sequences, stated once for any element type so that
    the proofs about leads and entries need not rediscover them. */
module SeqFacts {

  /** A non-empty sequence is its head followed by its tail, as a multiset too. */
  lemma MultisetCons<T>(s: seq<T>)
    requires s != []
    ensures multiset(s) == multiset{s[0]} + multiset(s[1..])
  {
    assert s == [s[0]] + s[1..];
  }

  /** Head and tail of a three-part concatenation `a + m + b` with `a`
      non-empty; the tail keeps the three parts apart, so a merge over
      `pre + [e] + post` can be unfolded without regrouping. */
  lemma ConsOfConcat<T>(a: seq<T>, m: seq<T>, b: seq<T>)
    requires a != []
    ensures (a + m + b)[0] == a[0]
    ensures (a + m + b)[1..] == a[1..] + m + b
  {
  }

  /** Head and tail of a two-part concatenation `a + b` with `a` non-empty. */
  lemma ConsOfAppend<T>(a: seq<T>, b: seq<T>)
    requires a != []
    ensures (a + b)[0] == a[0]
    ensures (a + b)[1..] == a[1..] + b
  {
  }

  /** Putting `x` after the first `k + 1` elements of `s`, seen from the tail. */
  lemma ConsSplit<T>(s: seq<T>, x: T, k: nat)
    requires k < |s|
    ensures [s[0]] + (s[1..][..k] + [x] + s[1..][k..]) == s[..k + 1] + [x] + s[k + 1..]
  {
    assert s[..k + 1] == [s[0]] + s[1..][..k];
    assert s[k + 1..] == s[1..][k..];
  }

  /** A sequence wrapped in `pre` and `post`, cut into four pieces at `a` and `b`. */
  lemma Regroup<T>(pre: seq<T>, s: seq<T>, post: seq<T>, a: nat, b: nat)
    requires a <= b <= |s|
    ensures pre + s + post == pre + s[..a] + s[a..b] + (s[b..] + post)
  {
    assert s == s[..a] + s[a..b] + s[b..];
  }
}
