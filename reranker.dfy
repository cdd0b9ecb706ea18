// Hybrid retrieval (api/rag/reranker.py): a BM25 keyword index over the
// stored chunks, min-max score normalisation, the merge of vector and
// BM25 hits by content, the weighted hybrid score and its stable
// descending sort, plus the URL-diversity re-ranker.

module Reranker {
  import opened Records
  import opened PyText
  import opened Ranking

  /** A search hit: the document, the raw score under the list's score key
   *  ("similarity" for vector hits, "bm25_score" for BM25 hits) and the
   *  "<key>_normalized" entry once normalisation has written it. */
  datatype Hit = Hit(doc: Doc, score: real, normalized: Option<real>)

  /** A merged entry: the dictionary copied from one hit, plus the
   *  "vector_score", "bm25_score_norm" and "hybrid_score" entries. */
  datatype Ranked = Ranked(hit: Hit, vectorScore: real, bm25ScoreNorm: real, hybridScore: real)

  /** A row of the corpus query (embeddings joined with documents). */
  datatype CorpusRow = CorpusRow(id: int, chunkText: string, metadata: Metadata, url: string, title: string)

  /** A BM25 index, identified by the tokenised corpus it was built from. */
  datatype Bm25Index = Bm25Index(corpus: seq<seq<string>>)

  /** The BM25 score of corpus document i for a tokenised query. */
  type Bm25Scorer = (seq<seq<string>>, nat, seq<string>) -> real

  /** Whitespace tokenisation of lower-cased text. */
  function Tokenize(s: string): seq<string> {
    Split(Lower(s))
  }

  function CorpusDoc(row: CorpusRow): Doc {
    Doc(Some(row.id), row.chunkText, row.url, row.title, row.metadata, None, None)
  }

  function CorpusDocs(rows: seq<CorpusRow>): (r: seq<Doc>)
    ensures |r| == |rows|
    ensures forall k :: 0 <= k < |rows| ==> r[k] == CorpusDoc(rows[k])
  {
    if rows == [] then [] else CorpusDocs(rows[..|rows| - 1]) + [CorpusDoc(rows[|rows| - 1])]
  }

  function TokenizedCorpus(docs: seq<Doc>): (r: seq<seq<string>>)
    ensures |r| == |docs|
    ensures forall k :: 0 <= k < |docs| ==> r[k] == Tokenize(docs[k].content)
  {
    if docs == [] then [] else TokenizedCorpus(docs[..|docs| - 1]) + [Tokenize(docs[|docs| - 1].content)]
  }

  // ---------------------------------------------------------------
  // Min-max normalisation

  function MinScore(s: seq<Hit>): (m: real)
    requires s != []
    ensures forall k :: 0 <= k < |s| ==> m <= s[k].score
  {
    if |s| == 1 then s[0].score
    else
      var m := MinScore(s[1..]);
      assert forall k :: 1 <= k < |s| ==> s[k] == s[1..][k - 1];
      if s[0].score <= m then s[0].score else m
  }

  function MaxScore(s: seq<Hit>): (m: real)
    requires s != []
    ensures forall k :: 0 <= k < |s| ==> s[k].score <= m
  {
    if |s| == 1 then s[0].score
    else
      var m := MaxScore(s[1..]);
      assert forall k :: 1 <= k < |s| ==> s[k] == s[1..][k - 1];
      if s[0].score >= m then s[0].score else m
  }

  /** The value normalisation writes for one score, given the list's
   *  minimum and maximum: a min-max rescaling, or 1.0 for every entry
   *  when all scores are equal. */
  function NormalizedValue(score: real, lo: real, hi: real): real {
    if hi - lo > 0.0 then (score - lo) / (hi - lo) else 1.0
  }

  function Normalized(s: seq<Hit>): (r: seq<Hit>)
    ensures |r| == |s|
  {
    if s == [] then [] else
      var lo, hi := MinScore(s), MaxScore(s);
      seq(|s|, k requires 0 <= k < |s| => s[k].(normalized := Some(NormalizedValue(s[k].score, lo, hi))))
  }

  lemma NormalizedAt(s: seq<Hit>, k: nat)
    requires k < |s|
    ensures Normalized(s)[k] == s[k].(normalized := Some(NormalizedValue(s[k].score, MinScore(s), MaxScore(s))))
  {
  }

  lemma NormalizedValueBounds(x: real, lo: real, hi: real)
    requires lo <= x <= hi
    ensures 0.0 <= NormalizedValue(x, lo, hi) <= 1.0
  {
    if hi - lo > 0.0 {
      var d := hi - lo;
      var v := (x - lo) / d;
      assert v * d == x - lo;
      if v < 0.0 { ProductSign(v, d); }
      if v > 1.0 { ProductAbove(v, d); }
    }
  }

  lemma ProductSign(v: real, d: real)
    requires v < 0.0 && d > 0.0
    ensures v * d < 0.0
  {
  }

  lemma ProductAbove(v: real, d: real)
    requires v > 1.0 && d > 0.0
    ensures v * d > d
  {
    assert v * d - d == (v - 1.0) * d;
  }

  lemma MulMonotone(a: real, b: real, r: real)
    requires a <= b && r >= 0.0
    ensures a * r <= b * r
  {
  }

  lemma MulMonotoneLeft(a: real, b: real, r: real)
    requires a <= b && r >= 0.0
    ensures r * a <= r * b
  {
  }

  lemma NormalizedValueMonotone(x: real, y: real, lo: real, hi: real)
    requires x <= y
    ensures NormalizedValue(x, lo, hi) <= NormalizedValue(y, lo, hi)
  {
    if hi - lo > 0.0 {
      var d := hi - lo;
      var inv := 1.0 / d;
      assert (x - lo) / d == (x - lo) * inv && (y - lo) / d == (y - lo) * inv;
      MulMonotone(x - lo, y - lo, inv);
    }
  }

  lemma NormalizedValueEnds(lo: real, hi: real)
    ensures lo < hi ==> NormalizedValue(lo, lo, hi) == 0.0 && NormalizedValue(hi, lo, hi) == 1.0
    ensures lo == hi ==> NormalizedValue(lo, lo, hi) == 1.0
  {
    if lo < hi {
      var d := hi - lo;
      assert lo - lo == 0.0 && hi - lo == d;
      assert 0.0 / d == 0.0;
      assert d / d == 1.0;
    }
  }

  /** Normalisation writes a value in [0, 1] on every hit and changes
   *  nothing else. */
  lemma NormalizedBounds(s: seq<Hit>, k: nat)
    requires k < |s|
    ensures Normalized(s)[k].normalized.Some?
    ensures 0.0 <= Normalized(s)[k].normalized.value <= 1.0
    ensures Normalized(s)[k].(normalized := s[k].normalized) == s[k]
  {
    NormalizedAt(s, k);
    NormalizedValueBounds(s[k].score, MinScore(s), MaxScore(s));
  }

  /** Normalisation preserves the order of the scores. */
  lemma NormalizedMonotone(s: seq<Hit>, a: nat, b: nat)
    requires a < |s| && b < |s| && s[a].score <= s[b].score
    ensures Normalized(s)[a].normalized.value <= Normalized(s)[b].normalized.value
  {
    NormalizedAt(s, a);
    NormalizedAt(s, b);
    NormalizedValueMonotone(s[a].score, s[b].score, MinScore(s), MaxScore(s));
  }

  /** With distinct scores the lowest maps to 0 and the highest to 1;
   *  with all scores equal every hit gets 1. */
  lemma NormalizedExtremes(s: seq<Hit>, a: nat)
    requires a < |s|
    ensures s[a].score == MinScore(s) && MinScore(s) < MaxScore(s) ==> Normalized(s)[a].normalized == Some(0.0)
    ensures s[a].score == MaxScore(s) && MinScore(s) < MaxScore(s) ==> Normalized(s)[a].normalized == Some(1.0)
    ensures MinScore(s) == MaxScore(s) ==> Normalized(s)[a].normalized == Some(1.0)
  {
    NormalizedAt(s, a);
    NormalizedValueEnds(MinScore(s), MaxScore(s));
  }

  /** Writes the "<key>_normalized" entry on every hit, in place. */
  method NormalizeScores(a: array<Hit>)
    modifies a
    ensures a[..] == Normalized(old(a[..]))
  {
    if a.Length == 0 {
      return;
    }
    var lo, hi := MinScore(a[..]), MaxScore(a[..]);
    ghost var s := a[..];
    var i := 0;
    while i < a.Length
      invariant 0 <= i <= a.Length
      invariant forall k :: 0 <= k < i ==> a[k] == s[k].(normalized := Some(NormalizedValue(s[k].score, lo, hi)))
      invariant forall k :: i <= k < a.Length ==> a[k] == s[k]
    {
      a[i] := a[i].(normalized := Some(NormalizedValue(a[i].score, lo, hi)));
      i := i + 1;
    }
  }

  // ---------------------------------------------------------------
  // Merging by content

  function Keys(m: seq<Ranked>): (r: seq<string>)
    ensures |r| == |m|
    ensures forall k :: 0 <= k < |m| ==> r[k] == m[k].hit.doc.content
  {
    if m == [] then [] else Keys(m[..|m| - 1]) + [m[|m| - 1].hit.doc.content]
  }

  function Contents(hs: seq<Hit>): (r: seq<string>)
    ensures |r| == |hs|
    ensures forall k :: 0 <= k < |hs| ==> r[k] == hs[k].doc.content
  {
    if hs == [] then [] else Contents(hs[..|hs| - 1]) + [hs[|hs| - 1].doc.content]
  }

  /** Position of the entry with this content, if any. */
  function FindKey(m: seq<Ranked>, key: string): (r: Option<nat>)
    ensures r.Some? ==> r.value < |m| && m[r.value].hit.doc.content == key
    ensures r.None? <==> key !in Keys(m)
  {
    if m == [] then None
    else if m[|m| - 1].hit.doc.content == key then Some(|m| - 1)
    else
      var r := FindKey(m[..|m| - 1], key);
      assert Keys(m) == Keys(m[..|m| - 1]) + [m[|m| - 1].hit.doc.content];
      r
  }

  /** The merged dictionary after one vector hit: the hit's whole entry
   *  replaces any earlier one with the same content, keeping its place. */
  function AddVector(m: seq<Ranked>, h: Hit): seq<Ranked> {
    var entry := Ranked(h, h.normalized.GetOr(0.0), 0.0, 0.0);
    match FindKey(m, h.doc.content)
    case Some(p) => m[p := entry]
    case None => m + [entry]
  }

  /** The merged dictionary after one BM25 hit: an existing entry only
   *  takes the BM25 score, a new content is appended with vector score 0. */
  function AddBm25(m: seq<Ranked>, h: Hit): seq<Ranked> {
    match FindKey(m, h.doc.content)
    case Some(p) => m[p := m[p].(bm25ScoreNorm := h.normalized.GetOr(0.0))]
    case None => m + [Ranked(h, 0.0, h.normalized.GetOr(0.0), 0.0)]
  }

  function MergeVector(m: seq<Ranked>, hs: seq<Hit>): seq<Ranked> {
    if hs == [] then m else AddVector(MergeVector(m, hs[..|hs| - 1]), hs[|hs| - 1])
  }

  function MergeBm25(m: seq<Ranked>, hs: seq<Hit>): seq<Ranked> {
    if hs == [] then m else AddBm25(MergeBm25(m, hs[..|hs| - 1]), hs[|hs| - 1])
  }

  function Merged(vec: seq<Hit>, bm: seq<Hit>): seq<Ranked> {
    MergeBm25(MergeVector([], vec), bm)
  }

  function HybridScore(alpha: real, e: Ranked): real {
    alpha * e.vectorScore + (1.0 - alpha) * e.bm25ScoreNorm
  }

  function WithHybrid(alpha: real, m: seq<Ranked>): (r: seq<Ranked>)
    ensures |r| == |m|
    ensures forall k :: 0 <= k < |m| ==> r[k] == m[k].(hybridScore := HybridScore(alpha, m[k]))
  {
    seq(|m|, k requires 0 <= k < |m| => m[k].(hybridScore := HybridScore(alpha, m[k])))
  }

  function HybridKey(m: seq<Ranked>): nat -> real {
    (k: nat) => if k < |m| then m[k].hybridScore else 0.0
  }

  /** The merged entries in the order of the stable sort by hybrid score,
   *  highest first. */
  function Reranked(alpha: real, vec: seq<Hit>, bm: seq<Hit>): (r: seq<Ranked>)
  {
    var s := WithHybrid(alpha, Merged(vec, bm));
    var order := SortedIndices(|s|, HybridKey(s));
    SortedIndicesCorrect(|s|, HybridKey(s));
    Permute(s, order)
  }

  // Keys of the merge: each content once, in order of first occurrence.

  function AddKey(ks: seq<string>, c: string): seq<string> {
    if c in ks then ks else ks + [c]
  }

  function DedupOnto(ks: seq<string>, cs: seq<string>): seq<string> {
    if cs == [] then ks else AddKey(DedupOnto(ks, cs[..|cs| - 1]), cs[|cs| - 1])
  }

  predicate Distinct(ks: seq<string>) {
    forall a, b :: 0 <= a < b < |ks| ==> ks[a] != ks[b]
  }

  lemma KeysAddVector(m: seq<Ranked>, h: Hit)
    ensures Keys(AddVector(m, h)) == AddKey(Keys(m), h.doc.content)
  {
    var e := Ranked(h, h.normalized.GetOr(0.0), 0.0, 0.0);
    match FindKey(m, h.doc.content)
    case Some(p) =>
      assert Keys(m[p := e]) == Keys(m);
    case None =>
      assert Keys(m + [e]) == Keys(m) + [h.doc.content];
  }

  lemma KeysAddBm25(m: seq<Ranked>, h: Hit)
    ensures Keys(AddBm25(m, h)) == AddKey(Keys(m), h.doc.content)
  {
    match FindKey(m, h.doc.content)
    case Some(p) =>
      assert Keys(m[p := m[p].(bm25ScoreNorm := h.normalized.GetOr(0.0))]) == Keys(m);
    case None =>
      var e := Ranked(h, 0.0, h.normalized.GetOr(0.0), 0.0);
      assert Keys(m + [e]) == Keys(m) + [h.doc.content];
  }

  lemma {:induction false} KeysMergeVector(m: seq<Ranked>, hs: seq<Hit>)
    ensures Keys(MergeVector(m, hs)) == DedupOnto(Keys(m), Contents(hs))
  {
    if hs != [] {
      KeysMergeVector(m, hs[..|hs| - 1]);
      KeysAddVector(MergeVector(m, hs[..|hs| - 1]), hs[|hs| - 1]);
      assert Contents(hs)[..|hs| - 1] == Contents(hs[..|hs| - 1]);
    }
  }

  lemma {:induction false} KeysMergeBm25(m: seq<Ranked>, hs: seq<Hit>)
    ensures Keys(MergeBm25(m, hs)) == DedupOnto(Keys(m), Contents(hs))
  {
    if hs != [] {
      KeysMergeBm25(m, hs[..|hs| - 1]);
      KeysAddBm25(MergeBm25(m, hs[..|hs| - 1]), hs[|hs| - 1]);
      assert Contents(hs)[..|hs| - 1] == Contents(hs[..|hs| - 1]);
    }
  }

  lemma {:induction false} DedupOntoProps(ks: seq<string>, cs: seq<string>)
    requires Distinct(ks)
    ensures Distinct(DedupOnto(ks, cs))
    ensures forall c :: c in DedupOnto(ks, cs) <==> c in ks || c in cs
    ensures |ks| <= |DedupOnto(ks, cs)| && DedupOnto(ks, cs)[..|ks|] == ks
  {
    if cs != [] {
      var init := cs[..|cs| - 1];
      DedupOntoProps(ks, init);
      assert cs == init + [cs[|cs| - 1]];
      var d := DedupOnto(ks, init);
      if cs[|cs| - 1] !in d {
        assert (d + [cs[|cs| - 1]])[..|ks|] == d[..|ks|];
      }
    }
  }

  /** The merged list holds each retrieved content exactly once: first the
   *  vector hits' contents in order of first occurrence, then the contents
   *  found only by BM25, in BM25 order. */
  lemma MergedKeys(vec: seq<Hit>, bm: seq<Hit>)
    ensures Keys(Merged(vec, bm)) == DedupOnto(DedupOnto([], Contents(vec)), Contents(bm))
    ensures Distinct(Keys(Merged(vec, bm)))
    ensures forall c :: c in Keys(Merged(vec, bm)) <==> c in Contents(vec) || c in Contents(bm)
    ensures |MergeVector([], vec)| <= |Merged(vec, bm)|
    ensures Keys(MergeVector([], vec)) == Keys(Merged(vec, bm))[..|MergeVector([], vec)|]
  {
    KeysMergeVector([], vec);
    assert Keys([]) == [];
    KeysMergeBm25(MergeVector([], vec), bm);
    DedupOntoProps([], Contents(vec));
    DedupOntoProps(DedupOnto([], Contents(vec)), Contents(bm));
  }

  predicate NormsInUnit(hs: seq<Hit>) {
    forall k :: 0 <= k < |hs| ==> 0.0 <= hs[k].normalized.GetOr(0.0) <= 1.0
  }

  predicate EntriesInUnit(m: seq<Ranked>) {
    forall k :: 0 <= k < |m| ==> 0.0 <= m[k].vectorScore <= 1.0 && 0.0 <= m[k].bm25ScoreNorm <= 1.0
  }

  /** Facts about every entry of the merge that follow from how it was
   *  built: a content seen only by vector search has BM25 score 0, one
   *  seen only by BM25 has vector score 0, and scores stay in [0, 1]. */
  predicate EntryFacts(m: seq<Ranked>, vec: seq<Hit>, bm: seq<Hit>) {
    forall k :: 0 <= k < |m| ==>
      && (m[k].hit.doc.content !in Contents(bm) ==> m[k].bm25ScoreNorm == 0.0)
      && (m[k].hit.doc.content !in Contents(vec) ==> m[k].vectorScore == 0.0)
  }

  lemma {:induction false} MergeVectorFacts(hs: seq<Hit>)
    requires NormsInUnit(hs)
    ensures EntryFacts(MergeVector([], hs), hs, [])
    ensures EntriesInUnit(MergeVector([], hs))
    ensures forall k :: 0 <= k < |MergeVector([], hs)| ==> MergeVector([], hs)[k].bm25ScoreNorm == 0.0
  {
    if hs != [] {
      var init := hs[..|hs| - 1];
      var h := hs[|hs| - 1];
      assert NormsInUnit(init) by {
        forall k | 0 <= k < |init| ensures 0.0 <= init[k].normalized.GetOr(0.0) <= 1.0 { assert init[k] == hs[k]; }
      }
      MergeVectorFacts(init);
      var m := MergeVector([], init);
      assert Contents(hs) == Contents(init) + [h.doc.content];
      var r := AddVector(m, h);
      forall k | 0 <= k < |r|
        ensures r[k].hit.doc.content !in Contents(hs) ==> r[k].vectorScore == 0.0
        ensures 0.0 <= r[k].vectorScore <= 1.0 && r[k].bm25ScoreNorm == 0.0
      {
        if k < |m| && r[k] == m[k] {
        } else {
          assert r[k].hit == h;
        }
      }
    }
  }

  lemma {:induction false} MergeBm25Facts(m0: seq<Ranked>, vec: seq<Hit>, hs: seq<Hit>)
    requires NormsInUnit(hs) && EntriesInUnit(m0)
    requires forall k :: 0 <= k < |m0| ==> m0[k].bm25ScoreNorm == 0.0
    requires forall k :: 0 <= k < |m0| ==> m0[k].hit.doc.content in Contents(vec)
    ensures EntryFacts(MergeBm25(m0, hs), vec, hs)
    ensures EntriesInUnit(MergeBm25(m0, hs))
  {
    if hs != [] {
      var init := hs[..|hs| - 1];
      var h := hs[|hs| - 1];
      assert NormsInUnit(init) by {
        forall k | 0 <= k < |init| ensures 0.0 <= init[k].normalized.GetOr(0.0) <= 1.0 { assert init[k] == hs[k]; }
      }
      MergeBm25Facts(m0, vec, init);
      var m := MergeBm25(m0, init);
      assert Contents(hs) == Contents(init) + [h.doc.content];
      var r := AddBm25(m, h);
      forall k | 0 <= k < |r|
        ensures r[k].hit.doc.content !in Contents(hs) ==> r[k].bm25ScoreNorm == 0.0
        ensures r[k].hit.doc.content !in Contents(vec) ==> r[k].vectorScore == 0.0
        ensures 0.0 <= r[k].vectorScore <= 1.0 && 0.0 <= r[k].bm25ScoreNorm <= 1.0
      {
        if k < |m| && r[k] == m[k] {
        } else if k < |m| {
          assert r[k].hit.doc.content == h.doc.content;
        } else {
          assert r[k].hit == h;
        }
      }
    } else {
      forall k | 0 <= k < |m0| ensures m0[k].hit.doc.content !in Contents(vec) ==> m0[k].vectorScore == 0.0 {
      }
    }
  }

  lemma MergeVectorContents(vec: seq<Hit>)
    ensures forall j :: 0 <= j < |MergeVector([], vec)| ==> MergeVector([], vec)[j].hit.doc.content in Contents(vec)
  {
    KeysMergeVector([], vec);
    assert Keys([]) == [];
    DedupOntoProps([], Contents(vec));
    var m0 := MergeVector([], vec);
    forall j | 0 <= j < |m0| ensures m0[j].hit.doc.content in Contents(vec) {
      assert Keys(m0)[j] == m0[j].hit.doc.content;
    }
  }

  lemma ScaledBound(c: real, x: real)
    requires 0.0 <= c && 0.0 <= x <= 1.0
    ensures 0.0 <= c * x <= c
  {
    assert c - c * x == c * (1.0 - x);
  }

  lemma ConvexInUnit(alpha: real, v: real, b: real)
    requires 0.0 <= alpha <= 1.0 && 0.0 <= v <= 1.0 && 0.0 <= b <= 1.0
    ensures 0.0 <= alpha * v + (1.0 - alpha) * b <= 1.0
  {
    var beta := 1.0 - alpha;
    ScaledBound(alpha, v);
    ScaledBound(beta, b);
    var p, q := alpha * v, beta * b;
    assert p <= alpha && q <= beta;
    assert p + q <= alpha + beta == 1.0;
  }

  lemma HybridInUnit(alpha: real, e: Ranked)
    requires 0.0 <= alpha <= 1.0
    requires 0.0 <= e.vectorScore <= 1.0 && 0.0 <= e.bm25ScoreNorm <= 1.0
    ensures 0.0 <= HybridScore(alpha, e) <= 1.0
  {
    ConvexInUnit(alpha, e.vectorScore, e.bm25ScoreNorm);
  }

  /** For normalised inputs every merged entry has both component scores
   *  in [0, 1]; a content missing from one search scores 0 for it; with
   *  0 <= alpha <= 1 the hybrid score is in [0, 1] as well. */
  lemma MergedScores(alpha: real, vec: seq<Hit>, bm: seq<Hit>, k: nat)
    requires NormsInUnit(vec) && NormsInUnit(bm)
    requires 0.0 <= alpha <= 1.0
    requires k < |Merged(vec, bm)|
    ensures var e := Merged(vec, bm)[k];
      && 0.0 <= e.vectorScore <= 1.0 && 0.0 <= e.bm25ScoreNorm <= 1.0
      && (e.hit.doc.content !in Contents(bm) ==> e.bm25ScoreNorm == 0.0)
      && (e.hit.doc.content !in Contents(vec) ==> e.vectorScore == 0.0)
      && 0.0 <= HybridScore(alpha, e) <= 1.0
  {
    MergeVectorFacts(vec);
    MergeVectorContents(vec);
    MergeBm25Facts(MergeVector([], vec), vec, bm);
    HybridInUnit(alpha, Merged(vec, bm)[k]);
  }

  /** The re-ranked list is a reordering of the merged entries, each
   *  taking its hybrid score, sorted from the highest hybrid score down,
   *  with entries of equal score in merge order. */
  lemma RerankedOrder(alpha: real, vec: seq<Hit>, bm: seq<Hit>)
    ensures var s := WithHybrid(alpha, Merged(vec, bm));
      var r := Reranked(alpha, vec, bm);
      && |r| == |s|
      && (exists order :: IsIndexPermutation(order, |s|) && StableOrder(order, HybridKey(s))
            && (forall k :: 0 <= k < |r| ==> order[k] < |s| && r[k] == s[order[k]]))
      && (forall a, b :: 0 <= a < b < |r| ==> r[a].hybridScore >= r[b].hybridScore)
  {
    var s := WithHybrid(alpha, Merged(vec, bm));
    var order := SortedIndices(|s|, HybridKey(s));
    SortedIndicesCorrect(|s|, HybridKey(s));
    var r := Reranked(alpha, vec, bm);
    forall a, b | 0 <= a < b < |r| ensures r[a].hybridScore >= r[b].hybridScore {
      assert HybridKey(s)(order[a]) >= HybridKey(s)(order[b]);
    }
  }

  // ---------------------------------------------------------------
  // BM25 top-k selection

  function Bm25Scores(index: Bm25Index, tokens: seq<string>, scorer: Bm25Scorer): (r: seq<real>)
    ensures |r| == |index.corpus|
  {
    seq(|index.corpus|, i requires 0 <= i < |index.corpus| => scorer(index.corpus, i, tokens))
  }

  function ScoreKey(scores: seq<real>): nat -> real {
    (i: nat) => if i < |scores| then scores[i] else 0.0
  }

  /** sorted(range(len(scores)), key=scores, reverse=True)[:top_k] */
  function TopIndices(scores: seq<real>, topK: int): (r: seq<nat>)
    ensures forall k :: 0 <= k < |r| ==> r[k] < |scores|
  {
    var order := SortedIndices(|scores|, ScoreKey(scores));
    SortedIndicesCorrect(|scores|, ScoreKey(scores));
    PyTake(order, topK)
  }

  function Bm25Hit(d: Doc, score: real): Hit {
    Hit(d.(bm25Score := Some(score)), score, None)
  }

  /** The hits the selection loop appends for the indices idxs: those with
   *  a positive score, copied from the document cache with their score. */
  function Hits(cache: seq<Doc>, scores: seq<real>, idxs: seq<nat>): (r: seq<Hit>)
    requires forall k :: 0 <= k < |idxs| ==> idxs[k] < |scores|
    ensures |r| <= |idxs|
  {
    if idxs == [] then [] else
      var i := idxs[|idxs| - 1];
      Hits(cache, scores, idxs[..|idxs| - 1])
        + (if scores[i] > 0.0 && i < |cache| then [Bm25Hit(cache[i], scores[i])] else [])
  }

  /** Some selected index with a positive score lies past the end of the
   *  document cache (documents_cache[idx] raises IndexError). */
  predicate OutOfCache(cache: seq<Doc>, scores: seq<real>, idxs: seq<nat>)
    requires forall k :: 0 <= k < |idxs| ==> idxs[k] < |scores|
  {
    exists k :: 0 <= k < |idxs| && scores[idxs[k]] > 0.0 && idxs[k] >= |cache|
  }

  const IndexErrorMessage := "list index out of range"

  /** What BM25 search returns for a query once the index is ensured. */
  function Bm25Selection(cache: seq<Doc>, index: Option<Bm25Index>, tokens: seq<string>,
                         scorer: Bm25Scorer, topK: int): Result<seq<Hit>>
  {
    if index.None? then Success([]) else
      var scores := Bm25Scores(index.value, tokens, scorer);
      var top := TopIndices(scores, topK);
      if OutOfCache(cache, scores, top) then Failure(IndexErrorMessage)
      else Success(Hits(cache, scores, top))
  }

  lemma {:induction false} HitsFromIndices(cache: seq<Doc>, scores: seq<real>, idxs: seq<nat>, j: nat)
    requires forall k :: 0 <= k < |idxs| ==> idxs[k] < |scores|
    requires j < |Hits(cache, scores, idxs)|
    ensures exists k :: (0 <= k < |idxs| && idxs[k] < |cache| && scores[idxs[k]] > 0.0 &&
                         Hits(cache, scores, idxs)[j] == Bm25Hit(cache[idxs[k]], scores[idxs[k]]))
  {
    var init := idxs[..|idxs| - 1];
    var t := Hits(cache, scores, init);
    if j < |t| {
      HitsFromIndices(cache, scores, init, j);
      var k :| 0 <= k < |init| && init[k] < |cache| && scores[init[k]] > 0.0
        && t[j] == Bm25Hit(cache[init[k]], scores[init[k]]);
      assert idxs[k] == init[k];
    } else {
      assert Hits(cache, scores, idxs)[j] == Bm25Hit(cache[idxs[|idxs| - 1]], scores[idxs[|idxs| - 1]]);
    }
  }

  predicate Descending(r: seq<Hit>) {
    forall a, b :: 0 <= a < b < |r| ==> r[a].score >= r[b].score
  }

  /** Hits keep the order of their indices, so hits for indices sorted by
   *  descending score have descending scores. */
  lemma {:induction false} HitsDescending(cache: seq<Doc>, scores: seq<real>, idxs: seq<nat>)
    requires forall k :: 0 <= k < |idxs| ==> idxs[k] < |scores|
    requires forall a, b :: 0 <= a < b < |idxs| ==> scores[idxs[a]] >= scores[idxs[b]]
    ensures Descending(Hits(cache, scores, idxs))
  {
    if idxs != [] {
      var init := idxs[..|idxs| - 1];
      var last := idxs[|idxs| - 1];
      HitsDescending(cache, scores, init);
      var t := Hits(cache, scores, init);
      var r := Hits(cache, scores, idxs);
      forall a | 0 <= a < |t| ensures t[a].score >= scores[last] {
        HitsFromIndices(cache, scores, init, a);
        var k :| 0 <= k < |init| && init[k] < |cache| && scores[init[k]] > 0.0
          && t[a] == Bm25Hit(cache[init[k]], scores[init[k]]);
        assert init[k] == idxs[k];
      }
      forall a, b | 0 <= a < b < |r| ensures r[a].score >= r[b].score {
        if b < |t| {
          assert r[a] == t[a] && r[b] == t[b];
        } else {
          assert r[a] == t[a];
        }
      }
    }
  }

  /** A successful selection returns at most top_k hits (when top_k >= 0),
   *  each a cached document with its positive BM25 score, in order of
   *  descending score. */
  lemma Bm25SelectionRanked(cache: seq<Doc>, index: Bm25Index, tokens: seq<string>,
                            scorer: Bm25Scorer, topK: int)
    requires Bm25Selection(cache, Some(index), tokens, scorer, topK).Success?
    ensures var r := Bm25Selection(cache, Some(index), tokens, scorer, topK).value;
      && (topK >= 0 ==> |r| <= topK)
      && (forall j :: 0 <= j < |r| ==> r[j].score > 0.0 && r[j].doc.bm25Score == Some(r[j].score))
      && (forall j :: 0 <= j < |r| ==> exists i :: 0 <= i < |cache| && r[j].doc == cache[i].(bm25Score := Some(r[j].score)))
      && (forall a, b :: 0 <= a < b < |r| ==> r[a].score >= r[b].score)
  {
    var scores := Bm25Scores(index, tokens, scorer);
    var order := SortedIndices(|scores|, ScoreKey(scores));
    SortedIndicesCorrect(|scores|, ScoreKey(scores));
    var top := TopIndices(scores, topK);
    assert forall a, b :: 0 <= a < b < |top| ==> scores[top[a]] >= scores[top[b]] by {
      forall a, b | 0 <= a < b < |top| ensures scores[top[a]] >= scores[top[b]] {
        assert top[a] == order[a] && top[b] == order[b];
        assert ScoreKey(scores)(order[a]) >= ScoreKey(scores)(order[b]);
      }
    }
    HitsDescending(cache, scores, top);
    var r := Hits(cache, scores, top);
    assert Bm25Selection(cache, Some(index), tokens, scorer, topK) == Success(r);
    forall j | 0 <= j < |r|
      ensures r[j].score > 0.0 && r[j].doc.bm25Score == Some(r[j].score)
      ensures exists i :: 0 <= i < |cache| && r[j].doc == cache[i].(bm25Score := Some(r[j].score))
    {
      HitsFromIndices(cache, scores, top, j);
    }
  }

  /** An index built from the current cache never makes the selection
   *  fail. */
  lemma FreshIndexSelects(cache: seq<Doc>, tokens: seq<string>, scorer: Bm25Scorer, topK: int)
    ensures Bm25Selection(cache, Some(Bm25Index(TokenizedCorpus(cache))), tokens, scorer, topK).Success?
  {
    var index := Bm25Index(TokenizedCorpus(cache));
    var scores := Bm25Scores(index, tokens, scorer);
    var top := TopIndices(scores, topK);
    assert forall k :: 0 <= k < |top| ==> top[k] < |cache|;
  }

  /** With an index over one document and an empty cache, a query that
   *  scores that document positively makes the selection raise. */
  lemma StaleIndexRaises(tokens: seq<string>, scorer: Bm25Scorer)
    requires scorer([["cv"]], 0, tokens) > 0.0
    ensures Bm25Selection([], Some(Bm25Index([["cv"]])), tokens, scorer, 20) == Failure(IndexErrorMessage)
  {
    var scores := Bm25Scores(Bm25Index([["cv"]]), tokens, scorer);
    SortedIndicesCorrect(1, ScoreKey(scores));
    var top := TopIndices(scores, 20);
    assert top == SortedIndices(1, ScoreKey(scores));
    assert top[0] == 0;
  }

  /** The selection loop of BM25 search: walks the top indices, and for
   *  each positive score appends a copy of the cached document carrying
   *  that score; an index past the end of the cache raises. */
  method SelectHits(cache: seq<Doc>, scores: seq<real>, top: seq<nat>) returns (r: Result<seq<Hit>>)
    requires forall k :: 0 <= k < |top| ==> top[k] < |scores|
    ensures r == if OutOfCache(cache, scores, top) then Failure(IndexErrorMessage) else Success(Hits(cache, scores, top))
  {
    var results: seq<Hit> := [];
    var i := 0;
    while i < |top|
      invariant 0 <= i <= |top|
      invariant results == Hits(cache, scores, top[..i])
      invariant !OutOfCache(cache, scores, top[..i])
    {
      assert top[..i + 1][..i] == top[..i];
      var idx := top[i];
      if scores[idx] > 0.0 {
        if idx >= |cache| {
          assert OutOfCache(cache, scores, top) by {
            assert top[i] == idx;
          }
          return Failure(IndexErrorMessage);
        }
        results := results + [Bm25Hit(cache[idx], scores[idx])];
      }
      i := i + 1;
    }
    assert top[..i] == top;
    return Success(results);
  }

  method ToArray(s: seq<Hit>) returns (a: array<Hit>)
    ensures fresh(a) && a[..] == s
  {
    a := new Hit[|s|](i requires 0 <= i < |s| => s[i]);
  }

  /** The outcome of hybrid retrieval once vector search succeeded: the
   *  BM25 failure if it raised, else the re-ranked merge cut to top_k. */
  function Hybrid(alpha: real, vec: seq<Hit>, sel: Result<seq<Hit>>, finalTopK: int): Result<seq<Ranked>> {
    if sel.Failure? then Failure(sel.error)
    else Success(PyTake(Reranked(alpha, Normalized(vec), Normalized(sel.value)), finalTopK))
  }

  /** The retriever's index state after (re)loading the corpus rows. */
  datatype IndexState = IndexState(index: Option<Bm25Index>, cache: seq<Doc>)

  function Loaded(st: IndexState, rows: seq<CorpusRow>): IndexState {
    IndexState(if rows != [] then Some(Bm25Index(TokenizedCorpus(CorpusDocs(rows)))) else st.index,
               CorpusDocs(rows))
  }

  /** The state after ensuring the index: reloaded when there is no index
   *  or the cache is empty, unchanged otherwise. */
  function Ensured(st: IndexState, rows: seq<CorpusRow>): IndexState {
    if st.index.None? || st.cache == [] then Loaded(st, rows) else st
  }

  /** Loading an empty corpus over an existing index keeps that index
   *  while emptying the cache. */
  lemma EmptyReloadKeepsIndex(st: IndexState)
    requires st.index.Some?
    ensures Loaded(st, []) == IndexState(st.index, [])
  {
  }

  // ---------------------------------------------------------------
  // The retriever object

  class HybridRetriever {
    const alpha: real
    const topKVector: int
    const topKBm25: int
    var bm25Index: Option<Bm25Index>
    var documentsCache: seq<Doc>

    function State(): IndexState
      reads this
    {
      IndexState(bm25Index, documentsCache)
    }

    constructor(alpha: real := 0.5, topKVector: int := 20, topKBm25: int := 20)
      ensures this.alpha == alpha && this.topKVector == topKVector && this.topKBm25 == topKBm25
      ensures State() == IndexState(None, [])
    {
      this.alpha := alpha;
      this.topKVector := topKVector;
      this.topKBm25 := topKBm25;
      bm25Index := None;
      documentsCache := [];
    }

    /** Reloads the document cache from the corpus rows; the index is
     *  rebuilt only when there are rows, otherwise the previous index
     *  stays (even though the cache is now empty). */
    method LoadDocumentsForBm25(rows: seq<CorpusRow>)
      modifies this
      ensures State() == Loaded(old(State()), rows)
    {
      documentsCache := [];
      var tokenizedCorpus: seq<seq<string>> := [];
      var i := 0;
      while i < |rows|
        invariant 0 <= i <= |rows|
        invariant bm25Index == old(bm25Index)
        invariant documentsCache == CorpusDocs(rows[..i])
        invariant tokenizedCorpus == TokenizedCorpus(documentsCache)
      {
        assert rows[..i + 1][..i] == rows[..i];
        var doc := CorpusDoc(rows[i]);
        documentsCache := documentsCache + [doc];
        tokenizedCorpus := tokenizedCorpus + [Tokenize(doc.content)];
        i := i + 1;
      }
      assert rows[..i] == rows;
      assert |tokenizedCorpus| == |rows|;
      if tokenizedCorpus != [] {
        bm25Index := Some(Bm25Index(tokenizedCorpus));
      }
    }

    method EnsureBm25Index(rows: seq<CorpusRow>)
      modifies this
      ensures State() == Ensured(old(State()), rows)
    {
      if bm25Index.None? || documentsCache == [] {
        LoadDocumentsForBm25(rows);
      }
    }

    method RefreshBm25Index(rows: seq<CorpusRow>)
      modifies this
      ensures State() == Loaded(old(State()), rows)
    {
      LoadDocumentsForBm25(rows);
    }

    /** BM25 search: the index is ensured first (loading `rows`, the
     *  current corpus, when needed); without an index the result is empty. */
    method Bm25Search(query: string, topK: int, rows: seq<CorpusRow>, scorer: Bm25Scorer)
      returns (r: Result<seq<Hit>>)
      modifies this
      ensures State() == Ensured(old(State()), rows)
      ensures r == Bm25Selection(documentsCache, bm25Index, Tokenize(query), scorer, topK)
    {
      EnsureBm25Index(rows);
      if bm25Index.None? {
        return Success([]);
      }
      var tokens := Tokenize(query);
      var scores := Bm25Scores(bm25Index.value, tokens, scorer);
      var top := TopIndices(scores, topK);
      r := SelectHits(documentsCache, scores, top);
    }

    /** Normalises both lists in place, merges them by content and returns
     *  the entries sorted by hybrid score. */
    method MergeAndRerank(vec: array<Hit>, bm: array<Hit>) returns (r: seq<Ranked>)
      requires vec != bm
      modifies vec, bm
      ensures vec[..] == Normalized(old(vec[..]))
      ensures bm[..] == Normalized(old(bm[..]))
      ensures r == Reranked(alpha, vec[..], bm[..])
    {
      NormalizeScores(vec);
      NormalizeScores(bm);
      var merged: seq<Ranked> := [];
      for i := 0 to vec.Length
        invariant merged == MergeVector([], vec[..i])
      {
        assert vec[..i + 1][..i] == vec[..i];
        var h := vec[i];
        var entry := Ranked(h, h.normalized.GetOr(0.0), 0.0, 0.0);
        var p := FindKey(merged, h.doc.content);
        if p.Some? {
          merged := merged[p.value := entry];
        } else {
          merged := merged + [entry];
        }
      }
      assert vec[..vec.Length] == vec[..];
      ghost var afterVector := merged;
      for i := 0 to bm.Length
        invariant merged == MergeBm25(afterVector, bm[..i])
      {
        assert bm[..i + 1][..i] == bm[..i];
        var h := bm[i];
        var p := FindKey(merged, h.doc.content);
        if p.Some? {
          merged := merged[p.value := merged[p.value].(bm25ScoreNorm := h.normalized.GetOr(0.0))];
        } else {
          merged := merged + [Ranked(h, 0.0, h.normalized.GetOr(0.0), 0.0)];
        }
      }
      assert bm[..bm.Length] == bm[..];
      ghost var unscored := merged;
      for i := 0 to |merged|
        invariant |merged| == |unscored|
        invariant forall k :: 0 <= k < i ==> merged[k] == unscored[k].(hybridScore := HybridScore(alpha, unscored[k]))
        invariant forall k :: i <= k < |merged| ==> merged[k] == unscored[k]
      {
        merged := merged[i := merged[i].(hybridScore := alpha * merged[i].vectorScore + (1.0 - alpha) * merged[i].bm25ScoreNorm)];
      }
      assert merged == WithHybrid(alpha, unscored);
      var order := SortedIndices(|merged|, HybridKey(merged));
      SortedIndicesCorrect(|merged|, HybridKey(merged));
      r := Permute(merged, order);
    }

    /** top_k or top_k_vector: an absent or zero top_k falls back. */
    function FinalTopK(topK: Option<int>): int {
      if topK.None? || topK.value == 0 then topKVector else topK.value
    }

    /** Hybrid retrieval: vector search (which may raise), BM25 search,
     *  merge and re-rank, then the first top_k entries. */
    method Retrieve(query: string, topK: Option<int>,
                    vectorSearch: (string, int) -> Result<seq<Hit>>,
                    rows: seq<CorpusRow>, scorer: Bm25Scorer)
      returns (r: Result<seq<Ranked>>)
      modifies this
      ensures vectorSearch(query, topKVector).Failure? ==>
        r == Failure(vectorSearch(query, topKVector).error) && State() == old(State())
      ensures vectorSearch(query, topKVector).Success? ==>
        && State() == Ensured(old(State()), rows)
        && r == Hybrid(alpha, vectorSearch(query, topKVector).value,
                       Bm25Selection(documentsCache, bm25Index, Tokenize(query), scorer, topKBm25),
                       FinalTopK(topK))
      ensures r.Success? && FinalTopK(topK) >= 0 ==> |r.value| <= FinalTopK(topK)
    {
      var finalTopK := FinalTopK(topK);
      var vectorResults := vectorSearch(query, topKVector);
      if vectorResults.Failure? {
        return Failure(vectorResults.error);
      }
      var bm25Results := Bm25Search(query, topKBm25, rows, scorer);
      if bm25Results.Failure? {
        return Failure(bm25Results.error);
      }
      var vs, bs := vectorResults.value, bm25Results.value;
      var va := ToArray(vs);
      var ba := ToArray(bs);
      var hybrid := MergeAndRerank(va, ba);
      return Success(PyTake(hybrid, finalTopK));
    }
  }

  // ---------------------------------------------------------------
  // Diversity re-ranking

  function Urls(ds: seq<Doc>): set<string> {
    set k | 0 <= k < |ds| :: ds[k].url
  }

  lemma UrlIn(ds: seq<Doc>, k: nat)
    requires k < |ds|
    ensures ds[k].url in Urls(ds)
  {
  }

  /** r is obtained from s by deleting elements, with `idx` the kept
   *  positions. */
  ghost predicate Picks<T>(r: seq<T>, s: seq<T>, idx: seq<nat>) {
    && |idx| == |r|
    && (forall k :: 0 <= k < |idx| ==> idx[k] < |s| && r[k] == s[idx[k]])
    && (forall a, b :: 0 <= a < b < |idx| ==> idx[a] < idx[b])
  }

  ghost predicate IsSubsequence<T>(r: seq<T>, s: seq<T>) {
    exists idx :: Picks(r, s, idx)
  }

  lemma PicksAppend<T>(r: seq<T>, s: seq<T>, idx: seq<nat>, i: nat)
    requires Picks(r, s, idx) && i < |s|
    requires forall k :: 0 <= k < |idx| ==> idx[k] < i
    ensures Picks(r + [s[i]], s, idx + [i])
  {
  }

  lemma UrlsAppend(r: seq<Doc>, d: Doc)
    ensures Urls(r) <= Urls(r + [d])
  {
    forall u | u in Urls(r) ensures u in Urls(r + [d]) {
      var k :| 0 <= k < |r| && r[k].url == u;
      assert (r + [d])[k] == r[k];
    }
  }

  /** Greedy reference for the diversity re-ranking: scanning from
   *  position i, a result is kept iff its URL is not among the kept ones,
   *  and the scan stops once top_k results are kept. */
  function DiverseScan(results: seq<Doc>, i: nat, kept: seq<Doc>, topK: int): seq<Doc>
    requires i <= |results|
    decreases |results| - i
  {
    if i == |results| || |kept| >= topK then kept
    else if results[i].url in Urls(kept) then DiverseScan(results, i + 1, kept, topK)
    else DiverseScan(results, i + 1, kept + [results[i]], topK)
  }

  /** The top result always, then the greedy scan over the rest. */
  function Diverse(results: seq<Doc>, topK: int): seq<Doc> {
    if results == [] then [] else DiverseScan(results, 1, [results[0]], topK)
  }

  /** results[j] is the first result carrying its URL. */
  ghost predicate FirstOfUrl(results: seq<Doc>, j: nat) {
    j < |results| && forall j' :: 0 <= j' < j ==> results[j'].url != results[j].url
  }

  ghost predicate AllFirstOfUrl(kept: seq<Doc>, results: seq<Doc>) {
    forall k :: 0 <= k < |kept| ==> exists j: nat :: FirstOfUrl(results, j) && kept[k] == results[j]
  }

  lemma {:induction false} ScanKeepsFirstOfUrl(results: seq<Doc>, i: nat, kept: seq<Doc>, topK: int)
    requires i <= |results|
    requires AllFirstOfUrl(kept, results)
    requires forall j :: 0 <= j < i ==> results[j].url in Urls(kept)
    ensures AllFirstOfUrl(DiverseScan(results, i, kept, topK), results)
    decreases |results| - i
  {
    if i == |results| || |kept| >= topK {
    } else if results[i].url in Urls(kept) {
      ScanKeepsFirstOfUrl(results, i + 1, kept, topK);
    } else {
      var more := kept + [results[i]];
      assert FirstOfUrl(results, i);
      assert AllFirstOfUrl(more, results) by {
        forall k | 0 <= k < |more|
          ensures exists j: nat :: FirstOfUrl(results, j) && more[k] == results[j]
        {
          if k < |kept| {
            assert more[k] == kept[k];
          } else {
            assert more[k] == results[i];
          }
        }
      }
      UrlsAppend(kept, results[i]);
      UrlIn(more, |kept|);
      ScanKeepsFirstOfUrl(results, i + 1, more, topK);
    }
  }

  /** Every kept result is the first result with its URL: a later
   *  duplicate never displaces an earlier one. */
  lemma DiverseKeepsFirstOfUrl(results: seq<Doc>, topK: int)
    ensures AllFirstOfUrl(Diverse(results, topK), results)
  {
    if results != [] {
      assert FirstOfUrl(results, 0);
      UrlIn([results[0]], 0);
      ScanKeepsFirstOfUrl(results, 1, [results[0]], topK);
    }
  }

  /** The inner scan: no kept document has this document's URL. */
  method IsDiverse(doc: Doc, selected: seq<Doc>) returns (b: bool)
    ensures b <==> forall k :: 0 <= k < |selected| ==> selected[k].url != doc.url
  {
    var j := 0;
    while j < |selected|
      invariant 0 <= j <= |selected|
      invariant forall k :: 0 <= k < j ==> selected[k].url != doc.url
    {
      if doc.url == selected[j].url {
        return false;
      }
      j := j + 1;
    }
    return true;
  }

  /** Keeps the top result, then every later result whose URL is not yet
   *  among the kept ones, stopping once top_k results are kept. */
  method RerankByDiversity(results: seq<Doc>, topK: int) returns (r: seq<Doc>)
    ensures results == [] <==> r == []
    ensures results != [] ==> r[0] == results[0]
    ensures IsSubsequence(r, results)
    ensures forall a, b :: 0 <= a < b < |r| ==> r[a].url != r[b].url
    ensures |r| <= if topK < 1 then 1 else topK
    ensures |r| >= topK || forall j :: 0 <= j < |results| ==> results[j].url in Urls(r)
    ensures r == Diverse(results, topK)
  {
    if results == [] {
      assert Picks([], results, []);
      return [];
    }
    r := [results[0]];
    ghost var idx: seq<nat> := [0];
    var i := 1;
    while i < |results|
      invariant 1 <= i <= |results|
      invariant 1 <= |r| <= (if topK < 1 then 1 else topK)
      invariant r[0] == results[0]
      invariant Picks(r, results, idx) && forall k :: 0 <= k < |idx| ==> idx[k] < i
      invariant forall a, b :: 0 <= a < b < |r| ==> r[a].url != r[b].url
      invariant forall j :: 0 <= j < i ==> results[j].url in Urls(r)
      invariant DiverseScan(results, i, r, topK) == Diverse(results, topK)
    {
      if |r| >= topK {
        break;
      }
      var doc := results[i];
      var isDiverse := IsDiverse(doc, r);
      if !isDiverse {
        var k :| 0 <= k < |r| && r[k].url == doc.url;
        UrlIn(r, k);
      } else {
        UrlsAppend(r, doc);
        PicksAppend(r, results, idx, i);
        r := r + [doc];
        idx := idx + [i];
        UrlIn(r, |r| - 1);
      }
      i := i + 1;
    }
    assert Picks(r, results, idx);
  }
}
