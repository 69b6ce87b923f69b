/**
 * The fallback hybrid retriever (Backend/retriever.py): it merges the keyword (BM25) and the
 * vector search results, deduplicated by content, scores each content by the weights of
 * the lists it was found in, sorts by score keeping first-appearance order among equal
 * scores, and keeps the first `k`. Documents are their `page_content`; the two searches'
 * results are inputs.
 */
module HybridRetriever {
  import opened Text
  import opened StableSort

  /** `weights[0]` for BM25 and `weights[1]` for the vector search. */
  datatype Weights = Weights(bm25: real, vector: real)

  const DefaultWeights: Weights := Weights(0.4, 0.6)
  const DefaultK: int := 5
  const ContextSeparator: string := "\n\n"

  predicate NoRepeats(xs: seq<string>) {
    forall i, j :: 0 <= i < j < |xs| ==> xs[i] != xs[j]
  }

  /** The contents of `xs` in order of first appearance. */
  function Dedup(xs: seq<string>): (r: seq<string>)
    ensures forall x :: x in r <==> x in xs
  {
    if xs == [] then []
    else
      var d := Dedup(xs[..|xs| - 1]);
      var x := xs[|xs| - 1];
      assert xs == xs[..|xs| - 1] + [x];
      if x in d then d else d + [x]
  }

  /** Each content appears once in the merge. */
  lemma {:induction false} DedupNoRepeats(xs: seq<string>)
    ensures NoRepeats(Dedup(xs))
  {
    if xs != [] {
      var init := xs[..|xs| - 1];
      DedupNoRepeats(init);
    }
  }

  function Elems(xs: seq<string>): set<string> {
    if xs == [] then {} else Elems(xs[..|xs| - 1]) + {xs[|xs| - 1]}
  }

  lemma ElemsSnoc(xs: seq<string>, x: string)
    ensures Elems(xs + [x]) == Elems(xs) + {x}
  {
    assert (xs + [x])[..|xs|] == xs;
  }

  lemma {:induction false} ElemsIn(xs: seq<string>, x: string)
    ensures x in Elems(xs) <==> x in xs
  {
    if xs != [] {
      ElemsIn(xs[..|xs| - 1], x);
      assert xs == xs[..|xs| - 1] + [xs[|xs| - 1]];
    }
  }

  /** What the vector occurrences of `c` add: `w` for each one. */
  function VectorBonus(vs: seq<string>, c: string, w: real): real {
    if vs == [] then 0.0
    else VectorBonus(vs[..|vs| - 1], c, w) + (if vs[|vs| - 1] == c then w else 0.0)
  }

  /** The score of content `c` once both lists are merged. */
  function Score(w: Weights, bm25: seq<string>, vector: seq<string>, c: string): real {
    (if c in bm25 then w.bm25 else 0.0) + VectorBonus(vector, c, w.vector)
  }

  function ScoreKey(w: Weights, bm25: seq<string>, vector: seq<string>): string -> real {
    c => Score(w, bm25, vector, c)
  }

  /** Python's `xs[:k]`: a negative `k` counts from the end. */
  function TopK(xs: seq<string>, k: int): (r: seq<string>)
    ensures |r| <= |xs| && r == xs[..|r|]
    ensures k >= 0 ==> |r| == if k < |xs| then k else |xs|
    ensures k < 0 ==> |r| == if |xs| + k > 0 then |xs| + k else 0
  {
    if k >= 0 then (if k < |xs| then xs[..k] else xs)
    else if |xs| + k > 0 then xs[..|xs| + k] else []
  }

  /** The merged contents, sorted by descending score. */
  function Ranked(w: Weights, bm25: seq<string>, vector: seq<string>): seq<string> {
    SortDesc(Dedup(bm25 + vector), ScoreKey(w, bm25, vector))
  }

  /** `doc_scores.get(content, 0)`. */
  function MapKey(scores: map<string, real>): string -> real {
    d => if d in scores then scores[d] else 0.0
  }

  /**
   * The state of the merge after reading `bm25` and then `vector`: `combined` holds each
   * content once in order of first appearance, `seen` the same contents, and `scores` the
   * score of each.
   */
  ghost predicate Merged(w: Weights, bm25: seq<string>, vector: seq<string>,
                         seen: set<string>, combined: seq<string>, scores: map<string, real>) {
    && combined == Dedup(bm25 + vector)
    && seen == Elems(bm25 + vector)
    && scores.Keys == seen
    && (forall c :: c in scores ==> scores[c] == Score(w, bm25, vector, c))
  }

  /** One step of the first loop keeps the merge state. */
  lemma KeywordStep(w: Weights, bm25: seq<string>, x: string,
                    seen: set<string>, combined: seq<string>, scores: map<string, real>)
    requires Merged(w, bm25, [], seen, combined, scores)
    ensures x in seen ==> Merged(w, bm25 + [x], [], seen, combined, scores)
    ensures x !in seen ==> Merged(w, bm25 + [x], [], seen + {x}, combined + [x], scores[x := w.bm25])
  {
    var all := bm25 + [x];
    assert bm25 + [] == bm25 && all + [] == all;
    ElemsIn(bm25, x);
    DedupSnoc(bm25, x);
    ElemsSnoc(bm25, x);
    var next := if x in seen then scores else scores[x := w.bm25];
    forall c | c in next ensures next[c] == Score(w, all, [], c) {
      assert c in all by {
        ElemsIn(bm25, c);
      }
      if c in scores {
        assert c in bm25 by {
          ElemsIn(bm25, c);
        }
      }
    }
  }

  /** A step of the second loop over a content already seen: its score gains the vector weight. */
  lemma VectorStepSeen(w: Weights, bm25: seq<string>, vector: seq<string>, x: string,
                       seen: set<string>, combined: seq<string>, scores: map<string, real>)
    requires Merged(w, bm25, vector, seen, combined, scores) && x in seen
    ensures Merged(w, bm25, vector + [x], seen, combined, scores[x := scores[x] + w.vector])
  {
    assert bm25 + (vector + [x]) == (bm25 + vector) + [x];
    ElemsIn(bm25 + vector, x);
    DedupSnoc(bm25 + vector, x);
    ElemsSnoc(bm25 + vector, x);
    assert seen + {x} == seen;
    ScoresStep(w, bm25, vector, x, scores, scores[x] + w.vector);
    assert scores[x := scores[x] + w.vector].Keys == seen;
  }

  /** A step of the second loop over a new content: it is appended with the vector weight. */
  lemma VectorStepNew(w: Weights, bm25: seq<string>, vector: seq<string>, x: string,
                      seen: set<string>, combined: seq<string>, scores: map<string, real>)
    requires Merged(w, bm25, vector, seen, combined, scores) && x !in seen
    ensures Merged(w, bm25, vector + [x], seen + {x}, combined + [x], scores[x := w.vector])
  {
    ElemsIn(bm25 + vector, x);
    assert bm25 + (vector + [x]) == (bm25 + vector) + [x];
    DedupSnoc(bm25 + vector, x);
    ElemsSnoc(bm25 + vector, x);
    ScoresStep(w, bm25, vector, x, scores, w.vector);
  }

  /**
   * Scores after the vector step for `x`: `x` gets `v`, which is its new score when `v` is
   * its old score (or nothing, for a new content) plus the vector weight.
   */
  lemma ScoresStep(w: Weights, bm25: seq<string>, vector: seq<string>, x: string,
                   scores: map<string, real>, v: real)
    requires forall c :: c in scores ==> scores[c] == Score(w, bm25, vector, c)
    requires x in scores ==> v == scores[x] + w.vector
    requires x !in scores ==> x !in bm25 + vector && v == w.vector
    ensures forall c :: c in scores[x := v] ==> scores[x := v][c] == Score(w, bm25, vector + [x], c)
  {
    forall c | c in scores[x := v] ensures scores[x := v][c] == Score(w, bm25, vector + [x], c) {
      BonusSnoc(vector, x, c, w.vector);
      if c == x && x !in scores {
        assert x !in vector;
        BonusAbsent(vector, x, w.vector);
      }
    }
  }

  /** Sorting by the recorded scores is sorting by `Score`: every merged content has its score recorded. */
  lemma SortByRecordedScores(w: Weights, bm25: seq<string>, vector: seq<string>,
                             combined: seq<string>, scores: map<string, real>)
    requires Merged(w, bm25, vector, scores.Keys, combined, scores)
    ensures SortDesc(combined, MapKey(scores)) == Ranked(w, bm25, vector)
  {
    forall y | y in combined ensures MapKey(scores)(y) == ScoreKey(w, bm25, vector)(y) {
      ElemsIn(bm25 + vector, y);
    }
    SortDescCongruent(combined, MapKey(scores), ScoreKey(w, bm25, vector));
  }

  /** What `_get_relevant_documents` returns. */
  function Retrieve(w: Weights, k: int, bm25: seq<string>, vector: seq<string>): seq<string> {
    TopK(Ranked(w, bm25, vector), k)
  }

  lemma DedupSnoc(xs: seq<string>, x: string)
    ensures Dedup(xs + [x]) == if x in xs then Dedup(xs) else Dedup(xs) + [x]
  {
    assert (xs + [x])[..|xs|] == xs;
  }

  lemma BonusSnoc(vs: seq<string>, x: string, c: string, w: real)
    ensures VectorBonus(vs + [x], c, w) == VectorBonus(vs, c, w) + (if x == c then w else 0.0)
  {
    assert (vs + [x])[..|vs|] == vs;
  }

  lemma {:induction false} BonusAbsent(vs: seq<string>, c: string, w: real)
    requires c !in vs
    ensures VectorBonus(vs, c, w) == 0.0
  {
    if vs != [] {
      assert vs[..|vs| - 1] <= vs;
      BonusAbsent(vs[..|vs| - 1], c, w);
    }
  }

  /** How often `c` occurs in `vs`. */
  function Occurrences(vs: seq<string>, c: string): nat {
    if vs == [] then 0
    else Occurrences(vs[..|vs| - 1], c) + (if vs[|vs| - 1] == c then 1 else 0)
  }

  lemma {:induction false} OccurrencesCount(vs: seq<string>, c: string)
    ensures Occurrences(vs, c) == multiset(vs)[c]
  {
    if vs != [] {
      var init := vs[..|vs| - 1];
      OccurrencesCount(init, c);
      assert vs == init + [vs[|vs| - 1]];
      assert multiset(vs) == multiset(init) + multiset{vs[|vs| - 1]};
    }
  }

  /** Each vector occurrence adds the vector weight once. */
  lemma {:induction false} BonusCountsOccurrences(vs: seq<string>, c: string, w: real)
    ensures VectorBonus(vs, c, w) == w * (Occurrences(vs, c) as real)
  {
    if vs != [] {
      var init := vs[..|vs| - 1];
      BonusCountsOccurrences(init, c, w);
      if vs[|vs| - 1] == c {
        MulSucc(w, Occurrences(init, c));
      }
    }
  }

  lemma MulSucc(w: real, m: nat)
    ensures w * ((m + 1) as real) == w * (m as real) + w
  {
  }

  lemma {:induction false} NoRepeatsCount(xs: seq<string>, x: string)
    requires NoRepeats(xs)
    ensures multiset(xs)[x] <= 1
  {
    if xs != [] {
      NoRepeatsCount(xs[1..], x);
      assert xs == [xs[0]] + xs[1..];
      assert xs[0] !in xs[1..];
    }
  }

  lemma PermutationNoRepeats(a: seq<string>, b: seq<string>)
    requires NoRepeats(a) && multiset(a) == multiset(b)
    ensures NoRepeats(b)
  {
    forall i, j | 0 <= i < j < |b| ensures b[i] != b[j] {
      if b[i] == b[j] {
        var x := b[i];
        assert b == b[..j] + [b[j]] + b[j + 1..];
        assert x in b[..j];
        assert multiset(b)[x] >= 2;
        NoRepeatsCount(a, x);
        assert false;
      }
    }
  }

  /** No two returned documents share their content. */
  lemma RetrieveNoRepeats(w: Weights, k: int, bm25: seq<string>, vector: seq<string>)
    ensures NoRepeats(Retrieve(w, k, bm25, vector))
  {
    DedupNoRepeats(bm25 + vector);
    PermutationNoRepeats(Dedup(bm25 + vector), Ranked(w, bm25, vector));
  }

  /** Every returned document comes from one of the two searches. */
  lemma RetrieveFromInputs(w: Weights, k: int, bm25: seq<string>, vector: seq<string>)
    ensures forall x :: x in Retrieve(w, k, bm25, vector) ==> x in bm25 || x in vector
  {
    var ranked := Ranked(w, bm25, vector);
    forall x | x in Retrieve(w, k, bm25, vector) ensures x in bm25 || x in vector {
      assert x in ranked;
      assert x in multiset(ranked);
      assert x in multiset(Dedup(bm25 + vector));
      assert x in bm25 + vector;
    }
  }

  /**
   * The result is the first documents of the descending ranking, and documents of equal
   * score keep the order in which the merge first met them.
   */
  lemma RetrieveOrder(w: Weights, k: int, bm25: seq<string>, vector: seq<string>)
    ensures var ranked := Ranked(w, bm25, vector);
            Retrieve(w, k, bm25, vector) == ranked[..|Retrieve(w, k, bm25, vector)|]
            && SortedDesc(ranked, ScoreKey(w, bm25, vector))
    ensures forall v :: WithKey(Ranked(w, bm25, vector), ScoreKey(w, bm25, vector), v)
                     == WithKey(Dedup(bm25 + vector), ScoreKey(w, bm25, vector), v)
  {
    SortDescSorted(Dedup(bm25 + vector), ScoreKey(w, bm25, vector));
    forall v ensures WithKey(Ranked(w, bm25, vector), ScoreKey(w, bm25, vector), v)
                  == WithKey(Dedup(bm25 + vector), ScoreKey(w, bm25, vector), v) {
      SortDescStable(Dedup(bm25 + vector), ScoreKey(w, bm25, vector), v);
    }
  }

  /** Where a content stands under the default weights: found by both, by the vector search only, or by BM25 only. */
  function Category(bm25: seq<string>, vector: seq<string>, c: string): nat {
    if c in bm25 && c in vector then 2 else if c in vector then 1 else 0
  }

  lemma DefaultScore(bm25: seq<string>, vector: seq<string>, c: string)
    requires NoRepeats(vector) && (c in bm25 || c in vector)
    ensures Score(DefaultWeights, bm25, vector, c)
         == (if Category(bm25, vector, c) == 2 then 1.0 else if Category(bm25, vector, c) == 1 then 0.6 else 0.4)
  {
    BonusCountsOccurrences(vector, c, 0.6);
    OccurrencesCount(vector, c);
    NoRepeatsCount(vector, c);
    if c in vector {
      assert multiset(vector)[c] == 1;
    } else {
      assert multiset(vector)[c] == 0;
    }
  }

  /**
   * With the default weights and no repeats inside the vector results, documents found by
   * both searches come first, then those only the vector search found, then BM25-only ones.
   */
  lemma DefaultCategoryOrder(k: int, bm25: seq<string>, vector: seq<string>)
    requires NoRepeats(vector)
    ensures var r := Retrieve(DefaultWeights, k, bm25, vector);
            forall i, j :: 0 <= i < j < |r| ==> Category(bm25, vector, r[i]) >= Category(bm25, vector, r[j])
  {
    var r := Retrieve(DefaultWeights, k, bm25, vector);
    RetrieveOrder(DefaultWeights, k, bm25, vector);
    RetrieveFromInputs(DefaultWeights, k, bm25, vector);
    var ranked := Ranked(DefaultWeights, bm25, vector);
    forall i, j | 0 <= i < j < |r|
      ensures Category(bm25, vector, r[i]) >= Category(bm25, vector, r[j])
    {
      assert r[i] == ranked[i] && r[j] == ranked[j];
      assert ScoreKey(DefaultWeights, bm25, vector)(ranked[i]) >= ScoreKey(DefaultWeights, bm25, vector)(ranked[j]);
      assert r[i] in r && r[j] in r;
      DefaultScore(bm25, vector, r[i]);
      DefaultScore(bm25, vector, r[j]);
    }
  }

  /** `get_context`: the contents joined by a blank line. */
  function GetContext(docs: seq<string>): string {
    Join(docs, ContextSeparator)
  }

  /** The context is empty without documents and holds every document's content. */
  lemma {:induction false} ContextHoldsDocs(docs: seq<string>)
    ensures docs == [] ==> GetContext(docs) == ""
    ensures forall d :: d in docs ==> Contains(GetContext(docs), d)
  {
    if docs != [] {
      assert Contains(GetContext(docs), docs[0]) by {
        assert docs[0] <= GetContext(docs);
      }
      if |docs| > 1 {
        ContextHoldsDocs(docs[1..]);
        forall d | d in docs[1..] ensures Contains(GetContext(docs), d) {
          ContainsInSuffix(docs[0] + ContextSeparator, GetContext(docs[1..]), d);
        }
      }
    }
  }

  class Retriever {
    const weights: Weights
    const k: int

    constructor (weights: Weights, k: int)
      ensures this.weights == weights && this.k == k
    {
      this.weights := weights;
      this.k := k;
    }

    /** One pass of the first loop: a BM25 content not seen yet is recorded with `weights[0]`. */
    method MergeKeywordResult(done: seq<string>, content: string,
                              seen0: set<string>, combined0: seq<string>, scores0: map<string, real>)
      returns (seen: set<string>, combined: seq<string>, scores: map<string, real>)
      requires Merged(weights, done, [], seen0, combined0, scores0)
      ensures Merged(weights, done + [content], [], seen, combined, scores)
    {
      seen, combined, scores := seen0, combined0, scores0;
      KeywordStep(weights, done, content, seen, combined, scores);
      if content !in seen {
        seen := seen + {content};
        scores := scores[content := weights.bm25];
        combined := combined + [content];
      }
    }

    /** The first loop of `_get_relevant_documents`: each BM25 content once, scored `weights[0]`. */
    method MergeKeywordResults(bm25Docs: seq<string>)
      returns (seen: set<string>, combined: seq<string>, scores: map<string, real>)
      ensures Merged(weights, bm25Docs, [], seen, combined, scores)
    {
      seen, combined, scores := {}, [], map[];
      var i := 0;
      while i < |bm25Docs|
        invariant 0 <= i <= |bm25Docs|
        invariant Merged(weights, bm25Docs[..i], [], seen, combined, scores)
      {
        assert bm25Docs[..i + 1] == bm25Docs[..i] + [bm25Docs[i]];
        seen, combined, scores := MergeKeywordResult(bm25Docs[..i], bm25Docs[i], seen, combined, scores);
        i := i + 1;
      }
      assert bm25Docs[..i] == bm25Docs;
    }

    /** One pass of the second loop: a content already seen gains `weights[1]`, a new one is appended with `weights[1]`. */
    method MergeVectorResult(bm25Docs: seq<string>, done: seq<string>, content: string,
                             seen0: set<string>, combined0: seq<string>, scores0: map<string, real>)
      returns (seen: set<string>, combined: seq<string>, scores: map<string, real>)
      requires Merged(weights, bm25Docs, done, seen0, combined0, scores0)
      ensures Merged(weights, bm25Docs, done + [content], seen, combined, scores)
    {
      seen, combined, scores := seen0, combined0, scores0;
      if content in seen {
        VectorStepSeen(weights, bm25Docs, done, content, seen, combined, scores);
        scores := scores[content := scores[content] + weights.vector];
      } else {
        VectorStepNew(weights, bm25Docs, done, content, seen, combined, scores);
        seen := seen + {content};
        scores := scores[content := weights.vector];
        combined := combined + [content];
      }
    }

    /** The second loop, over the vector results in order. */
    method MergeVectorResults(bm25Docs: seq<string>, vectorDocs: seq<string>,
                              seen0: set<string>, combined0: seq<string>, scores0: map<string, real>)
      returns (seen: set<string>, combined: seq<string>, scores: map<string, real>)
      requires Merged(weights, bm25Docs, [], seen0, combined0, scores0)
      ensures Merged(weights, bm25Docs, vectorDocs, seen, combined, scores)
    {
      seen, combined, scores := seen0, combined0, scores0;
      var j := 0;
      while j < |vectorDocs|
        invariant 0 <= j <= |vectorDocs|
        invariant Merged(weights, bm25Docs, vectorDocs[..j], seen, combined, scores)
      {
        assert vectorDocs[..j + 1] == vectorDocs[..j] + [vectorDocs[j]];
        seen, combined, scores := MergeVectorResult(bm25Docs, vectorDocs[..j], vectorDocs[j], seen, combined, scores);
        j := j + 1;
      }
      assert vectorDocs[..j] == vectorDocs;
    }

    /** `_get_relevant_documents`, given what the two searches returned. */
    method GetRelevantDocuments(bm25Docs: seq<string>, vectorDocs: seq<string>) returns (docs: seq<string>)
      ensures docs == Retrieve(weights, k, bm25Docs, vectorDocs)
    {
      var seen, combined, scores := MergeKeywordResults(bm25Docs);
      seen, combined, scores := MergeVectorResults(bm25Docs, vectorDocs, seen, combined, scores);
      SortByRecordedScores(weights, bm25Docs, vectorDocs, combined, scores);
      combined := SortDesc(combined, MapKey(scores));
      docs := TopK(combined, k);
    }
  }
}
