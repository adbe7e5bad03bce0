/** The lexical retriever with a dense second stage: the first `10 * topK` lexical
    results are re-ordered by the similarity between the query's embedding and each
    document's cached statement embedding, and result assembly walks that order. */
module DenseReranker {
  import opened Records
  import opened Ranking
  import opened Assembly

  /** One embedding row, as the encoder and its pooling produce it. */
  type Vec = seq<real>

  /** How many lexical results per bucket slot go to the dense stage. */
  const ShortlistFactor: nat := 10

  /** The batch size of the embedding loop. */
  const DefaultBatchSize: nat := 128

  datatype DenseError =
    | RangeStepZero         // range(0, n, 0) refuses a zero step
    | NothingToConcatenate  // np.concatenate of an empty list of batches
    | EmptyShortlist        // the similarity step refuses an empty document matrix

  datatype Outcome<T> = Ok(value: T) | Err(error: DenseError)

  function Min(a: int, b: int): int {
    if a <= b then a else b
  }

  // ---------------------------------------------------------------------------
  // The embedding loop: consecutive slices of `batchSize` texts, each encoded and
  // appended, and the pieces concatenated into one row per text.

  /** The rows [lo, hi) of one batch. */
  datatype Span = Span(lo: nat, hi: nat)

  /** The spans `range(i, n, size)` visits from `i` on, each clipped at `n`. */
  function SpansFrom(i: nat, n: nat, size: nat): seq<Span>
    requires size > 0
    decreases n - i
  {
    if i >= n then [] else [Span(i, Min(i + size, n))] + SpansFrom(i + size, n, size)
  }

  function BatchSpans(n: nat, size: nat): seq<Span>
    requires size > 0
  {
    SpansFrom(0, n, size)
  }

  /** The spans from `i` on tile [i, n): the first starts at `i`, each one ends
      where the next begins, the last ends at `n`, and every span but the last
      holds exactly `size` rows. */
  lemma {:induction false} SpansFromTile(i: nat, n: nat, size: nat)
    requires size > 0
    ensures var s := SpansFrom(i, n, size);
      && (s == [] <==> i >= n)
      && (s != [] ==> s[0].lo == i && s[|s| - 1].hi == n)
      && (forall k :: 0 <= k < |s| ==> s[k].lo < s[k].hi <= s[k].lo + size)
      && (forall k :: 0 <= k < |s| - 1 ==> s[k].hi == s[k + 1].lo && s[k].hi == s[k].lo + size)
    decreases n - i
  {
    if i < n {
      var s := SpansFrom(i, n, size);
      var rest := SpansFrom(i + size, n, size);
      SpansFromTile(i + size, n, size);
      assert s == [Span(i, Min(i + size, n))] + rest;
      forall k | 0 <= k < |s| - 1
        ensures s[k].hi == s[k + 1].lo && s[k].hi == s[k].lo + size
      {
        if k > 0 {
          assert s[k] == rest[k - 1] && s[k + 1] == rest[k];
        }
      }
    }
  }

  /** The batches of the embedding loop are disjoint, in order, and cover the rows
      0 .. n exactly: they tile [0, n). */
  lemma BatchSpansTile(n: nat, size: nat)
    requires size > 0
    ensures var s := BatchSpans(n, size);
      && (s == [] <==> n == 0)
      && (s != [] ==> s[0].lo == 0 && s[|s| - 1].hi == n)
      && (forall k :: 0 <= k < |s| ==> s[k].lo < s[k].hi <= s[k].lo + size)
      && (forall k :: 0 <= k < |s| - 1 ==> s[k].hi == s[k + 1].lo && s[k].hi == s[k].lo + size)
  {
    SpansFromTile(0, n, size);
  }

  /** One embedding row per text, in order: what the encoder gives each text. */
  function EmbedAll(texts: seq<string>, embed: string -> Vec): (rows: seq<Vec>) {
    seq(|texts|, j requires 0 <= j < |texts| => embed(texts[j]))
  }

  function Flatten(pieces: seq<seq<Vec>>): seq<Vec> {
    if pieces == [] then [] else Flatten(pieces[..|pieces| - 1]) + pieces[|pieces| - 1]
  }

  /** The number of rows of all pieces together. */
  function TotalRows(pieces: seq<seq<Vec>>): nat {
    if pieces == [] then 0 else TotalRows(pieces[..|pieces| - 1]) + |pieces[|pieces| - 1]|
  }

  lemma {:induction false} FlattenLength(pieces: seq<seq<Vec>>)
    ensures |Flatten(pieces)| == TotalRows(pieces)
  {
    if pieces != [] {
      FlattenLength(pieces[..|pieces| - 1]);
    }
  }

  lemma {:induction false} FlattenAt(pieces: seq<seq<Vec>>, i: nat, j: nat)
    requires i < |pieces| && j < |pieces[i]|
    ensures TotalRows(pieces[..i]) + j < |Flatten(pieces)|
    ensures Flatten(pieces)[TotalRows(pieces[..i]) + j] == pieces[i][j]
  {
    var n := |pieces| - 1;
    var init := pieces[..n];
    FlattenLength(init);
    assert Flatten(pieces) == Flatten(init) + pieces[n];
    if i < n {
      FlattenAt(init, i, j);
      assert pieces[..i] == init[..i];
    } else {
      assert pieces[..i] == init;
    }
  }

  /** Row j of piece i is the row of `flat` that follows the rows of the pieces
      before piece i. */
  predicate RowAt(pieces: seq<seq<Vec>>, flat: seq<Vec>, i: nat, j: nat)
    requires i < |pieces| && j < |pieces[i]|
  {
    TotalRows(pieces[..i]) + j < |flat| && flat[TotalRows(pieces[..i]) + j] == pieces[i][j]
  }

  /** Joining the pieces keeps every row and adds none: there are as many rows as
      in all pieces together, and row j of piece i sits after the rows of the
      pieces before it. */
  lemma FlattenSpec(pieces: seq<seq<Vec>>)
    ensures |Flatten(pieces)| == TotalRows(pieces)
    ensures forall i: nat, j: nat :: i < |pieces| && j < |pieces[i]| ==> RowAt(pieces, Flatten(pieces), i, j)
  {
    FlattenLength(pieces);
    forall i: nat, j: nat | i < |pieces| && j < |pieces[i]|
      ensures RowAt(pieces, Flatten(pieces), i, j)
    {
      FlattenAt(pieces, i, j);
    }
  }

  /** np.concatenate(pieces, axis=0), which fails on an empty list. */
  function Concatenate(pieces: seq<seq<Vec>>): (r: Outcome<seq<Vec>>)
    ensures r.Err? <==> pieces == []
    ensures r.Err? ==> r.error == NothingToConcatenate
    ensures r.Ok? ==> r.value == Flatten(pieces)
    ensures r.Ok? ==> |r.value| == TotalRows(pieces)
  {
    FlattenLength(pieces);
    if pieces == [] then Err(NothingToConcatenate) else Ok(Flatten(pieces))
  }

  lemma EmbedAllSplit(texts: seq<string>, i: nat, hi: nat, embed: string -> Vec)
    requires i <= hi <= |texts|
    ensures EmbedAll(texts[..hi], embed) == EmbedAll(texts[..i], embed) + EmbedAll(texts[i..hi], embed)
  {
  }

  /** dense_retriever_forward: encodes `texts` batch by batch and concatenates the
      batch outputs. With a positive batch size and at least one text the result has
      exactly one row per text, in input order; `batches` are the row ranges the
      loop visited, which tile the input. */
  method DenseForward(texts: seq<string>, batchSize: nat, embed: string -> Vec)
    returns (r: Outcome<seq<Vec>>, ghost batches: seq<Span>)
    ensures batchSize == 0 ==> r == Err(RangeStepZero)
    ensures batchSize > 0 ==> batches == BatchSpans(|texts|, batchSize)
    ensures batchSize > 0 && |texts| == 0 ==> r == Err(NothingToConcatenate)
    ensures batchSize > 0 && |texts| > 0 ==> r == Ok(EmbedAll(texts, embed))
  {
    if batchSize == 0 {
      return Err(RangeStepZero), [];
    }
    var embeddingsList: seq<seq<Vec>> := [];
    batches := [];
    var i: nat := 0;
    while i < |texts|
      invariant batches + SpansFrom(i, |texts|, batchSize) == BatchSpans(|texts|, batchSize)
      invariant embeddingsList == [] <==> i == 0
      invariant i > 0 ==> |texts| > 0
      invariant Flatten(embeddingsList) == EmbedAll(texts[..Min(i, |texts|)], embed)
    {
      var hi := Min(i + batchSize, |texts|);
      var batchInputs := texts[i..hi];
      var embeddings := EmbedAll(batchInputs, embed);
      EmbedAllSplit(texts, i, hi, embed);
      assert (embeddingsList + [embeddings])[..|embeddingsList|] == embeddingsList;
      embeddingsList := embeddingsList + [embeddings];
      batches := batches + [Span(i, hi)];
      i := i + batchSize;
    }
    assert texts[..|texts|] == texts;
    r := Concatenate(embeddingsList);
  }

  // ---------------------------------------------------------------------------
  // The rerank step.

  /** The first `10 * topK` lexical results. */
  function ShortlistHits(retrieved: seq<Hit>, topK: nat): seq<Hit> {
    retrieved[..Min(ShortlistFactor * topK, |retrieved|)]
  }

  /** The ids of the first `10 * topK` lexical results, in lexical order. */
  function Shortlist(retrieved: seq<Hit>, topK: nat): (ids: seq<nat>)
    ensures |ids| == Min(ShortlistFactor * topK, |retrieved|)
    ensures forall k :: 0 <= k < |ids| ==> ids[k] == retrieved[k].doc
  {
    Docs(ShortlistHits(retrieved, topK))
  }

  function Zip(ids: seq<nat>, sims: seq<real>): seq<Hit>
    requires |ids| == |sims|
  {
    seq(|ids|, k requires 0 <= k < |ids| => Hit(ids[k], sims[k]))
  }

  /** The list backwards: the `[::-1]` of an index array. */
  function Reverse<T>(s: seq<T>): (r: seq<T>)
    ensures |r| == |s| && multiset(r) == multiset(s)
    ensures forall k :: 0 <= k < |s| ==> r[k] == s[|s| - 1 - k]
  {
    if s == [] then []
    else
      assert s == [s[0]] + s[1..];
      Reverse(s[1..]) + [s[0]]
  }

  /** The shortlist re-ordered by similarity, highest first, each id paired with its
      own similarity: argsort, reversed, then zipped. Equal similarities come out
      latest shortlisted first, as a stable ascending argsort reversed gives them;
      this is a stable descending sort of the reversed shortlist. */
  function Rerank(ids: seq<nat>, sims: seq<real>): (r: seq<Hit>)
    requires |ids| == |sims|
    ensures multiset(r) == multiset(Zip(ids, sims))
    ensures NonIncreasing(r)
  {
    SortNonIncreasing(Reverse(Zip(ids, sims)));
    SortByScore(Reverse(Zip(ids, sims)))
  }

  /** An example of the tie order: two shortlisted ids with the same similarity,
      5 then 3, come out 3 then 5. */
  lemma RerankTieOrder()
    ensures Rerank([5, 3], [1.0, 1.0]) == [Hit(3, 1.0), Hit(5, 1.0)]
  {
    assert Zip([5, 3], [1.0, 1.0]) == [Hit(5, 1.0), Hit(3, 1.0)];
    assert Reverse([Hit(5, 1.0), Hit(3, 1.0)]) == [Hit(3, 1.0), Hit(5, 1.0)];
  }

  /** Reranking is a permutation of the shortlist that adds and drops no id, pairs
      every id with its own similarity, and orders by similarity, highest first. */
  lemma RerankSpec(ids: seq<nat>, sims: seq<real>)
    requires |ids| == |sims|
    ensures var r := Rerank(ids, sims);
      && multiset(Docs(r)) == multiset(ids)
      && multiset(r) == multiset(Zip(ids, sims))
      && NonIncreasing(r)
  {
    var z := Zip(ids, sims);
    SortKeepsDocs(Reverse(z));
    DocsReverse(z);
    ZipDocs(ids, sims);
    assert multiset(Reverse(Docs(z))) == multiset(ids);
  }

  lemma DocsReverse(s: seq<Hit>)
    ensures Docs(Reverse(s)) == Reverse(Docs(s))
  {
  }

  lemma ZipDocs(ids: seq<nat>, sims: seq<real>)
    requires |ids| == |sims|
    ensures Docs(Zip(ids, sims)) == ids
  {
  }

  /** cosine_similarity(query_embedding, retrieved_document_embeddings)[0]: one
      similarity per shortlisted id, in shortlist order. */
  function Similarities(queryEmbedding: Vec, ids: seq<nat>, documentEmbeddings: seq<Vec>,
                        cosine: (Vec, Vec) -> real): (sims: seq<real>)
    requires forall k :: 0 <= k < |ids| ==> ids[k] < |documentEmbeddings|
    ensures |sims| == |ids|
    ensures forall k :: 0 <= k < |ids| ==> sims[k] == cosine(queryEmbedding, documentEmbeddings[ids[k]])
  {
    seq(|ids|, k requires 0 <= k < |ids| => cosine(queryEmbedding, documentEmbeddings[ids[k]]))
  }

  /** get_reranked_document_scores: the shortlist of the lexical ranking, re-ordered
      by the similarity of each document's embedding to the query's. The similarity
      step fails when the shortlist is empty. */
  function RerankShortlist(retrieved: seq<Hit>, topK: nat, queryEmbedding: Vec, documentEmbeddings: seq<Vec>,
                           cosine: (Vec, Vec) -> real): (r: Outcome<seq<Hit>>)
    requires InCorpus(documentEmbeddings, ShortlistHits(retrieved, topK))
    ensures r.Err? <==> |retrieved| == 0 || topK == 0
    ensures r.Err? ==> r.error == EmptyShortlist
  {
    var ids := Shortlist(retrieved, topK);
    if ids == [] then Err(EmptyShortlist)
    else Ok(Rerank(ids, Similarities(queryEmbedding, ids, documentEmbeddings, cosine)))
  }

  /** The rerank step fails exactly when the shortlist is empty. Otherwise it holds
      the same ids as the shortlist, each paired with the similarity of its own
      embedding to the query's, ordered by that similarity, highest first. */
  lemma RerankShortlistSpec(retrieved: seq<Hit>, topK: nat, queryEmbedding: Vec, documentEmbeddings: seq<Vec>,
                            cosine: (Vec, Vec) -> real)
    requires InCorpus(documentEmbeddings, ShortlistHits(retrieved, topK))
    ensures var r := RerankShortlist(retrieved, topK, queryEmbedding, documentEmbeddings, cosine);
      && (r.Err? <==> |retrieved| == 0 || topK == 0)
      && (r.Ok? ==>
            && multiset(Docs(r.value)) == multiset(Shortlist(retrieved, topK))
            && NonIncreasing(r.value)
            && forall k :: 0 <= k < |r.value| ==>
                 r.value[k].doc in Shortlist(retrieved, topK)
                 && r.value[k].doc < |documentEmbeddings|
                 && r.value[k].score == cosine(queryEmbedding, documentEmbeddings[r.value[k].doc]))
  {
    var ids := Shortlist(retrieved, topK);
    if ids != [] {
      var sims := Similarities(queryEmbedding, ids, documentEmbeddings, cosine);
      var r := Rerank(ids, sims);
      RerankSpec(ids, sims);
      forall k | 0 <= k < |r|
        ensures r[k].doc in ids && r[k].doc < |documentEmbeddings|
        ensures r[k].score == cosine(queryEmbedding, documentEmbeddings[r[k].doc])
      {
        assert r[k] in multiset(Zip(ids, sims));
        var m :| 0 <= m < |ids| && Zip(ids, sims)[m] == r[k];
      }
    }
  }

  // ---------------------------------------------------------------------------
  // A dense query.

  /** The result of a dense query: the lexical ranking, reranked, then assembled. */
  function DenseQuery(records: seq<Record>, section: string, docType: string, scorer: Scorer,
                      corpus: seq<seq<Token>>, query: seq<Token>, queryEmbedding: Vec,
                      documentEmbeddings: seq<Vec>, cosine: (Vec, Vec) -> real,
                      statementId: string, topK: nat): (out: Outcome<Buckets>)
    requires |documentEmbeddings| == |records|
    ensures out.Err? ==> out.error == EmptyShortlist
  {
    var retrieved := LexicalRanking(records, section, docType, scorer, corpus, query);
    LexicalRankingSpec(records, section, docType, scorer, corpus, query);
    match RerankShortlist(retrieved, topK, queryEmbedding, documentEmbeddings, cosine)
    case Err(e) => Err(e)
    case Ok(ranked) =>
      RerankShortlistSpec(retrieved, topK, queryEmbedding, documentEmbeddings, cosine);
      Ok(Assembled(records, ranked, statementId, topK))
  }

  /** `e` is the example of a row of the query's section and type among the first
      `10 * topK` lexical results that carries `target`, with the similarity of that
      row's embedding to the query's. */
  predicate DenseExample(records: seq<Record>, retrieved: seq<Hit>, e: Example, section: string, docType: string,
                         target: Label, topK: nat,
                         queryEmbedding: Vec, documentEmbeddings: seq<Vec>, cosine: (Vec, Vec) -> real)
  {
    exists k :: 0 <= k < |retrieved| && k < ShortlistFactor * topK
      && retrieved[k].doc < |records| && retrieved[k].doc < |documentEmbeddings|
      && InScope(records[retrieved[k].doc], section, docType)
      && records[retrieved[k].doc].id == e.id && LabelOf(records[retrieved[k].doc].labels) == target
      && e.score == cosine(queryEmbedding, documentEmbeddings[retrieved[k].doc])
  }

  lemma DenseBucket(records: seq<Record>, retrieved: seq<Hit>, ranked: seq<Hit>, es: seq<Example>,
                    section: string, docType: string, target: Label,
                    topK: nat, queryEmbedding: Vec, documentEmbeddings: seq<Vec>, cosine: (Vec, Vec) -> real)
    requires |documentEmbeddings| == |records| && InCorpus(records, retrieved) && InCorpus(records, ranked)
    requires forall k :: 0 <= k < |retrieved| ==> InScope(records[retrieved[k].doc], section, docType)
    requires forall k :: 0 <= k < |ranked| ==>
      ranked[k].doc in Shortlist(retrieved, topK)
      && ranked[k].score == cosine(queryEmbedding, documentEmbeddings[ranked[k].doc])
    requires forall k :: 0 <= k < |es| ==> Drawn(records, ranked, es[k], target)
    ensures forall k :: 0 <= k < |es| ==>
      DenseExample(records, retrieved, es[k], section, docType, target, topK, queryEmbedding, documentEmbeddings, cosine)
  {
  }

  /** What a dense query returns. It fails exactly when the shortlist is empty,
      that is when no row has the query's section and type or `topK` is 0.
      Otherwise each bucket has at most `topK` examples, none is the querying
      statement, each comes from a row of the query's section and type among the
      first `10 * topK` lexical results whose label routes it to that bucket and
      carries that row's similarity, and the scores in each bucket never increase. */
  lemma DenseQuerySpec(records: seq<Record>, section: string, docType: string, scorer: Scorer,
                       corpus: seq<seq<Token>>, query: seq<Token>, queryEmbedding: Vec,
                       documentEmbeddings: seq<Vec>, cosine: (Vec, Vec) -> real,
                       statementId: string, topK: nat)
    requires |documentEmbeddings| == |records|
    ensures var retrieved := LexicalRanking(records, section, docType, scorer, corpus, query);
      var out := DenseQuery(records, section, docType, scorer, corpus, query, queryEmbedding,
                            documentEmbeddings, cosine, statementId, topK);
      && (out.Err? <==> ScopedIds(records, section, docType) == [] || topK == 0)
      && (out.Ok? ==>
            var b := out.value;
            && |b.contradictions| <= topK && |b.entailments| <= topK
            && (forall k :: 0 <= k < |b.contradictions| ==>
                  b.contradictions[k].id != statementId
                  && DenseExample(records, retrieved, b.contradictions[k], section, docType, Contradiction, topK,
                                  queryEmbedding, documentEmbeddings, cosine))
            && (forall k :: 0 <= k < |b.entailments| ==>
                  b.entailments[k].id != statementId
                  && DenseExample(records, retrieved, b.entailments[k], section, docType, Entailment, topK,
                                  queryEmbedding, documentEmbeddings, cosine))
            && ScoresNonIncreasing(b.contradictions) && ScoresNonIncreasing(b.entailments))
  {
    var retrieved := LexicalRanking(records, section, docType, scorer, corpus, query);
    LexicalRankingSpec(records, section, docType, scorer, corpus, query);
    var ids := ScopedIds(records, section, docType);
    assert |retrieved| == |ScoreHits(ids, scorer, corpus, query)| == |ids| by {
      assert |multiset(retrieved)| == |multiset(ScoreHits(ids, scorer, corpus, query))|;
    }
    RerankShortlistSpec(retrieved, topK, queryEmbedding, documentEmbeddings, cosine);
    var rr := RerankShortlist(retrieved, topK, queryEmbedding, documentEmbeddings, cosine);
    if rr.Ok? {
      var ranked := rr.value;
      AssembledSpec(records, ranked, statementId, topK);
      var b := Assembled(records, ranked, statementId, topK);
      DenseBucket(records, retrieved, ranked, b.contradictions, section, docType, Contradiction, topK,
                  queryEmbedding, documentEmbeddings, cosine);
      DenseBucket(records, retrieved, ranked, b.entailments, section, docType, Entailment, topK,
                  queryEmbedding, documentEmbeddings, cosine);
    }
  }

  /** When no row has the query's section and type, the shortlist is empty and the
      similarity step fails, so the query fails rather than returning empty buckets. */
  lemma DenseEmptyScope(records: seq<Record>, section: string, docType: string, scorer: Scorer,
                        corpus: seq<seq<Token>>, query: seq<Token>, queryEmbedding: Vec,
                        documentEmbeddings: seq<Vec>, cosine: (Vec, Vec) -> real,
                        statementId: string, topK: nat)
    requires |documentEmbeddings| == |records|
    requires forall j :: 0 <= j < |records| ==> !InScope(records[j], section, docType)
    ensures LexicalRanking(records, section, docType, scorer, corpus, query) == []
    ensures DenseQuery(records, section, docType, scorer, corpus, query, queryEmbedding,
                       documentEmbeddings, cosine, statementId, topK) == Err(EmptyShortlist)
  {
  }

  // ---------------------------------------------------------------------------
  // The retriever.

  /** The lexical retriever with a dense rerank stage, over a corpus table. It is
      not changed after it is built. */
  class CtrBm25OkapiDenseReranker {
    const records: seq<Record>
    const topK: nat
    /** One token sequence per record, the index the scoring primitive is fitted on. */
    const corpus: seq<seq<Token>>
    const tokenize: string -> seq<Token>
    const scorer: Scorer
    /** The encoder and its pooling, applied to one text. */
    const embed: string -> Vec
    const cosine: (Vec, Vec) -> real
    /** One statement embedding per record, in table order, computed once. */
    const documentEmbeddings: seq<Vec>

    predicate Valid() {
      |corpus| == |records| && |documentEmbeddings| == |records|
    }

    /** Builds the token index and embeds every statement. Embedding an empty table
        fails (there is no batch to concatenate), so the table must have a row. */
    constructor (records: seq<Record>, tokenize: string -> seq<Token>, scorer: Scorer,
                 embed: string -> Vec, cosine: (Vec, Vec) -> real, topK: nat)
      requires |records| > 0
      ensures Valid()
      ensures this.records == records && this.topK == topK
      ensures this.tokenize == tokenize && this.scorer == scorer
      ensures this.embed == embed && this.cosine == cosine
      ensures forall i :: 0 <= i < |records| ==>
        corpus[i] == tokenize(records[i].evidence) + tokenize(records[i].statement)
      ensures forall i :: 0 <= i < |records| ==> documentEmbeddings[i] == embed(records[i].statement)
    {
      this.records := records;
      this.topK := topK;
      this.tokenize := tokenize;
      this.scorer := scorer;
      this.embed := embed;
      this.cosine := cosine;
      var tokens := BuildCorpus(records, tokenize);
      this.corpus := tokens;
      var statements := seq(|records|, i requires 0 <= i < |records| => records[i].statement);
      var embedded: Outcome<seq<Vec>>;
      ghost var batches: seq<Span>;
      embedded, batches := DenseForward(statements, DefaultBatchSize, embed);
      this.documentEmbeddings := embedded.value;
    }

    /** get_reranked_document_scores, with the query embedded by the same batch loop
        as the documents. */
    method GetRerankedDocumentScores(query: string, retrieved: seq<Hit>) returns (r: Outcome<seq<Hit>>)
      requires Valid() && InCorpus(documentEmbeddings, ShortlistHits(retrieved, topK))
      ensures r == RerankShortlist(retrieved, topK, embed(query), documentEmbeddings, cosine)
    {
      var retrievedDocIds := Shortlist(retrieved, topK);
      var queryRows: Outcome<seq<Vec>>;
      ghost var batches: seq<Span>;
      queryRows, batches := DenseForward([query], DefaultBatchSize, embed);
      var queryEmbedding := queryRows.value[0];
      if retrievedDocIds == [] {
        return Err(EmptyShortlist);
      }
      var similarities := Similarities(queryEmbedding, retrievedDocIds, documentEmbeddings, cosine);
      r := Ok(Rerank(retrievedDocIds, similarities));
    }

    /** A query's result: the scoped rows ranked by BM25 score, the shortlist of that
        ranking reranked by embedding similarity, and the reranked list assembled
        into the contradiction and entailment buckets. */
    method GetDocumentScores(query: string, section: string, docType: string, statementId: string)
      returns (out: Outcome<Buckets>)
      requires Valid()
      ensures out == DenseQuery(records, section, docType, scorer, corpus, tokenize(query), embed(query),
                                documentEmbeddings, cosine, statementId, topK)
    {
      var docIds := ScopedIds(records, section, docType);
      var processedQuery := tokenize(query);
      var scored := ScoreHits(docIds, scorer, corpus, processedQuery);
      var retrievedDocuments := SortByScore(scored);
      LexicalRankingSpec(records, section, docType, scorer, corpus, processedQuery);
      var reranked := GetRerankedDocumentScores(query, retrievedDocuments);
      match reranked {
        case Err(e) =>
          out := Err(e);
        case Ok(rankedDocuments) =>
          RerankShortlistSpec(retrievedDocuments, topK, embed(query), documentEmbeddings, cosine);
          var b := AssembleBuckets(records, rankedDocuments, statementId, topK);
          out := Ok(b);
      }
    }
  }
}
