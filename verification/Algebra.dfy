/** Laws of sequences, multisets and maps that several proofs need one at a time. */
module Algebra {

  // ---- sequences ----

  lemma SeqAssoc<T>(a: seq<T>, b: seq<T>, c: seq<T>)
    ensures a + (b + c) == a + b + c
  {
  }

  lemma SnocAssoc<T>(a: seq<T>, b: seq<T>, x: T)
    ensures a + b + [x] == a + (b + [x])
  {
  }

  lemma Unsnoc<T>(s: seq<T>)
    requires s != []
    ensures s == s[..|s| - 1] + [s[|s| - 1]]
  {
  }

  lemma HeadAndRest<T>(a: seq<T>, b: seq<T>)
    requires a != []
    ensures a + b == [a[0]] + (a[1..] + b)
  {
  }

  /** A sequence around its position `i`. */
  lemma CutAround<T>(s: seq<T>, i: nat)
    requires i < |s|
    ensures s == s[..i] + ([s[i]] + s[i + 1..])
  {
  }

  lemma ConsPrefix<T>(x: T, s: seq<T>, n: nat)
    requires n <= |s|
    ensures ([x] + s)[..n + 1] == [x] + s[..n] && ([x] + s)[1..] == s && ([x] + s)[0] == x
  {
  }

  lemma HeadFirst<T>(s: seq<T>)
    requires s != []
    ensures s == [s[0]] + s[1..]
  {
  }

  // ---- multisets ----

  lemma AddNothing<T>(a: multiset<T>)
    ensures a + multiset{} == a && multiset{} + a == a
  {
  }

  lemma BagAssoc<T>(a: multiset<T>, b: multiset<T>, c: multiset<T>)
    ensures a + b + c == a + (b + c)
  {
  }

  lemma SwapFirst<T>(a: multiset<T>, b: multiset<T>, c: multiset<T>)
    ensures a + (b + c) == b + (a + c)
  {
  }

  lemma SwapLast<T>(a: multiset<T>, b: multiset<T>, c: multiset<T>)
    ensures a + b + c == a + c + b
  {
  }

  lemma CancelFront<T>(a: multiset<T>, b: multiset<T>)
    ensures (a + b) - a == b
  {
  }

  lemma TakeOut<T>(a: multiset<T>, x: T)
    requires x in a
    ensures a == (a - multiset{x}) + multiset{x} && |a - multiset{x}| == |a| - 1
  {
  }

  lemma BagOfSnoc<T>(s: seq<T>, x: T)
    ensures multiset(s + [x]) == multiset(s) + multiset{x}
  {
  }

  lemma AddToBoth<T>(x: multiset<T>, a: multiset<T>, b: multiset<T>, c: multiset<T>, d: multiset<T>)
    requires a + b == c + d
    ensures x + a + b == x + c + d
  {
    BagAssoc(x, a, b);
    BagAssoc(x, c, d);
  }

  lemma SumSwap<T>(a: multiset<T>, b: multiset<T>)
    ensures a + b == b + a
  {
  }

  /** `b` has gone over to `d`; then so has whatever else was counted with it. */
  lemma ShiftSum<T>(a: multiset<T>, b: multiset<T>, c: multiset<T>, d: multiset<T>)
    requires b + (a + c) == a + d
    ensures d == b + c
  {
    forall x ensures d[x] == (b + c)[x] {
      assert (b + (a + c))[x] == (a + d)[x];
    }
  }

  lemma ChainSums<T>(a: multiset<T>, a': multiset<T>, b: multiset<T>, b': multiset<T>, c: multiset<T>, c': multiset<T>)
    requires b + a' == a + b' && c + b' == b + c'
    ensures c + a' == a + c'
  {
    forall x ensures (c + a')[x] == (a + c')[x] {
      assert (b + a')[x] == (a + b')[x] && (c + b')[x] == (b + c')[x];
    }
  }

  // ---- maps ----

  /** Maps that differ at most at `k` agree at `j`. */
  lemma SameElsewhere<K, V>(m: map<K, V>, m': map<K, V>, k: K, j: K)
    requires m - {k} == m' - {k} && j != k
    ensures (j in m <==> j in m') && (j in m ==> m[j] == m'[j])
  {
    assert j in m <==> j in m - {k};
    assert j in m' <==> j in m' - {k};
    assert j in m ==> (m - {k})[j] == m[j];
    assert j in m' ==> (m' - {k})[j] == m'[j];
  }
}
