// Python's sorted(range(n), key=..., reverse=True): a stable sort of the
// indices 0..n-1 by a real-valued key, largest key first, ties kept in
// index order. Both the BM25 top-k selection and the hybrid re-ranking
// are this sort applied to a key of their own.

module Ranking {

  function Range(n: nat): (r: seq<nat>)
    ensures |r| == n
    ensures forall i :: 0 <= i < n ==> r[i] == i
  {
    if n == 0 then [] else Range(n - 1) + [n - 1]
  }

  predicate SortedDesc(r: seq<nat>, key: nat -> real) {
    forall a, b :: 0 <= a < b < |r| ==> key(r[a]) >= key(r[b])
  }

  /** Equal keys keep their original relative order. */
  predicate StableOrder(r: seq<nat>, key: nat -> real) {
    forall a, b :: 0 <= a < b < |r| && key(r[a]) == key(r[b]) ==> r[a] < r[b]
  }

  /** Inserts index i after every element whose key is at least key(i). */
  function Insert(xs: seq<nat>, i: nat, key: nat -> real): (r: seq<nat>)
    ensures |r| == |xs| + 1
  {
    if xs == [] then [i]
    else if key(xs[0]) >= key(i) then [xs[0]] + Insert(xs[1..], i, key)
    else [i] + xs
  }

  function InsertPos(xs: seq<nat>, i: nat, key: nat -> real): (p: nat)
    ensures p <= |xs|
  {
    if xs == [] then 0
    else if key(xs[0]) >= key(i) then 1 + InsertPos(xs[1..], i, key)
    else 0
  }

  lemma {:induction false} InsertShape(xs: seq<nat>, i: nat, key: nat -> real)
    ensures var p := InsertPos(xs, i, key);
      Insert(xs, i, key) == xs[..p] + [i] + xs[p..]
  {
    if xs != [] && key(xs[0]) >= key(i) {
      InsertShape(xs[1..], i, key);
      var p := InsertPos(xs[1..], i, key);
      assert xs[..p + 1] == [xs[0]] + xs[1..][..p];
      assert xs[p + 1..] == xs[1..][p..];
    }
  }

  /** Every element before the insertion point has a key at least key(i),
   *  the one at the point has a smaller key. */
  lemma {:induction false} InsertPosKeys(xs: seq<nat>, i: nat, key: nat -> real)
    ensures var p := InsertPos(xs, i, key);
      && (forall k :: 0 <= k < p ==> key(xs[k]) >= key(i))
      && (p < |xs| ==> key(xs[p]) < key(i))
  {
    if xs != [] && key(xs[0]) >= key(i) {
      InsertPosKeys(xs[1..], i, key);
      var p := InsertPos(xs[1..], i, key);
      forall k | 0 <= k < p + 1 ensures key(xs[k]) >= key(i) {
        if k > 0 {
          assert xs[k] == xs[1..][k - 1];
        }
      }
      assert p < |xs[1..]| ==> xs[p + 1] == xs[1..][p];
    }
  }

  /** Each index below n exactly once. */
  predicate IsIndexPermutation(r: seq<nat>, n: nat) {
    && |r| == n
    && (forall k :: 0 <= k < |r| ==> r[k] < n)
    && (forall a, b :: 0 <= a < b < |r| ==> r[a] != r[b])
    && (forall i :: 0 <= i < n ==> i in r)
  }

  function SortedIndices(n: nat, key: nat -> real): (r: seq<nat>)
  {
    if n == 0 then [] else Insert(SortedIndices(n - 1, key), n - 1, key)
  }

  lemma InsertAt(xs: seq<nat>, i: nat, key: nat -> real, k: nat)
    requires k <= |xs|
    ensures var p := InsertPos(xs, i, key);
      Insert(xs, i, key)[k] == if k < p then xs[k] else if k == p then i else xs[k - 1]
  {
    InsertShape(xs, i, key);
  }

  lemma InsertKeepsSorted(xs: seq<nat>, i: nat, key: nat -> real)
    requires SortedDesc(xs, key)
    ensures SortedDesc(Insert(xs, i, key), key)
  {
    InsertPosKeys(xs, i, key);
    var p := InsertPos(xs, i, key);
    var r := Insert(xs, i, key);
    forall a, b | 0 <= a < b < |r| ensures key(r[a]) >= key(r[b]) {
      InsertAt(xs, i, key, a);
      InsertAt(xs, i, key, b);
      if a < p && b > p {
        assert key(xs[a]) >= key(i);
        assert b - 1 == p || key(xs[p]) >= key(xs[b - 1]);
      }
    }
  }

  lemma InsertKeepsStable(xs: seq<nat>, i: nat, key: nat -> real)
    requires SortedDesc(xs, key) && StableOrder(xs, key)
    requires forall k :: 0 <= k < |xs| ==> xs[k] < i
    ensures StableOrder(Insert(xs, i, key), key)
  {
    InsertPosKeys(xs, i, key);
    var p := InsertPos(xs, i, key);
    var r := Insert(xs, i, key);
    forall a, b | 0 <= a < b < |r| ensures key(r[a]) == key(r[b]) ==> r[a] < r[b] {
      InsertAt(xs, i, key, a);
      InsertAt(xs, i, key, b);
      if a == p {
        assert key(xs[p]) >= key(xs[b - 1]) || b - 1 == p;
        assert key(r[b]) < key(r[a]);
      }
    }
  }

  lemma InsertKeepsPermutation(xs: seq<nat>, i: nat, key: nat -> real)
    requires IsIndexPermutation(xs, i)
    ensures IsIndexPermutation(Insert(xs, i, key), i + 1)
  {
    InsertShape(xs, i, key);
    var p := InsertPos(xs, i, key);
    var r := Insert(xs, i, key);
    forall a, b | 0 <= a < b < |r| ensures r[a] != r[b] {
      InsertAt(xs, i, key, a);
      InsertAt(xs, i, key, b);
    }
    forall v | 0 <= v < i + 1 ensures v in r {
      if v < i {
        assert v in xs;
        var k :| 0 <= k < |xs| && xs[k] == v;
        if k < p { InsertAt(xs, i, key, k); } else { InsertAt(xs, i, key, k + 1); }
      } else {
        InsertAt(xs, i, key, p);
      }
    }
    forall k | 0 <= k < |r| ensures r[k] < i + 1 {
      InsertAt(xs, i, key, k);
    }
  }

  lemma {:induction false} SortedIndicesPermutation(n: nat, key: nat -> real)
    ensures IsIndexPermutation(SortedIndices(n, key), n)
  {
    if n > 0 {
      SortedIndicesPermutation(n - 1, key);
      InsertKeepsPermutation(SortedIndices(n - 1, key), n - 1, key);
    }
  }

  lemma {:induction false} SortedIndicesSorted(n: nat, key: nat -> real)
    ensures SortedDesc(SortedIndices(n, key), key)
  {
    if n > 0 {
      SortedIndicesSorted(n - 1, key);
      InsertKeepsSorted(SortedIndices(n - 1, key), n - 1, key);
    }
  }

  lemma {:induction false} SortedIndicesStable(n: nat, key: nat -> real)
    ensures StableOrder(SortedIndices(n, key), key)
  {
    if n > 0 {
      var xs := SortedIndices(n - 1, key);
      SortedIndicesStable(n - 1, key);
      SortedIndicesSorted(n - 1, key);
      SortedIndicesPermutation(n - 1, key);
      InsertKeepsStable(xs, n - 1, key);
    }
  }

  /** The sort returns each index 0..n-1 exactly once, keys never
   *  increase along the result, and equal keys stay in index order. */
  lemma SortedIndicesCorrect(n: nat, key: nat -> real)
    ensures IsIndexPermutation(SortedIndices(n, key), n)
    ensures SortedDesc(SortedIndices(n, key), key)
    ensures StableOrder(SortedIndices(n, key), key)
  {
    SortedIndicesPermutation(n, key);
    SortedIndicesSorted(n, key);
    SortedIndicesStable(n, key);
  }

  /** Applying an index order to a sequence. */
  function Permute<T>(s: seq<T>, order: seq<nat>): (r: seq<T>)
    requires forall k :: 0 <= k < |order| ==> order[k] < |s|
    ensures |r| == |order|
    ensures forall k :: 0 <= k < |order| ==> r[k] == s[order[k]]
  {
    if order == [] then [] else [s[order[0]]] + Permute(s, order[1..])
  }
}
