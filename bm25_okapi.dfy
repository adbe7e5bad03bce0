/** The lexical retriever: BM25 restricted to the rows of the query's section and
    type, followed by result assembly over the lexical ranking. */
module Bm25Okapi {
  import opened Records
  import opened Ranking
  import opened Assembly

  /** `e` is the example of a row of the query's section and type that carries
      `target`, with the lexical score of that row. */
  predicate LexicalExample(records: seq<Record>, e: Example, section: string, docType: string, target: Label,
                           scorer: Scorer, corpus: seq<seq<Token>>, query: seq<Token>)
  {
    exists j :: 0 <= j < |records| && records[j].id == e.id
      && InScope(records[j], section, docType) && LabelOf(records[j].labels) == target
      && e.score == scorer(corpus, query, j)
  }

  lemma LexicalRankingInCorpus(records: seq<Record>, section: string, docType: string,
                               scorer: Scorer, corpus: seq<seq<Token>>, query: seq<Token>)
    ensures InCorpus(records, LexicalRanking(records, section, docType, scorer, corpus, query))
  {
    LexicalRankingSpec(records, section, docType, scorer, corpus, query);
  }

  /** What a lexical query returns: at most `topK` examples per bucket; none is the
      querying statement; each comes from a row of the query's section and type
      whose label routes it to that bucket and carries that row's score; and the
      scores in each bucket never increase. */
  lemma LexicalResultSpec(records: seq<Record>, section: string, docType: string, scorer: Scorer,
                          corpus: seq<seq<Token>>, query: seq<Token>, statementId: string, topK: nat)
    ensures InCorpus(records, LexicalRanking(records, section, docType, scorer, corpus, query))
    ensures var b := Assembled(records, LexicalRanking(records, section, docType, scorer, corpus, query), statementId, topK);
      && |b.contradictions| <= topK && |b.entailments| <= topK
      && (forall k :: 0 <= k < |b.contradictions| ==>
            b.contradictions[k].id != statementId
            && LexicalExample(records, b.contradictions[k], section, docType, Contradiction, scorer, corpus, query))
      && (forall k :: 0 <= k < |b.entailments| ==>
            b.entailments[k].id != statementId
            && LexicalExample(records, b.entailments[k], section, docType, Entailment, scorer, corpus, query))
      && ScoresNonIncreasing(b.contradictions) && ScoresNonIncreasing(b.entailments)
  {
    var ranked := LexicalRanking(records, section, docType, scorer, corpus, query);
    LexicalRankingSpec(records, section, docType, scorer, corpus, query);
    AssembledSpec(records, ranked, statementId, topK);
    var b := Assembled(records, ranked, statementId, topK);
    LexicalBucket(records, ranked, b.contradictions, section, docType, Contradiction, scorer, corpus, query);
    LexicalBucket(records, ranked, b.entailments, section, docType, Entailment, scorer, corpus, query);
  }

  lemma LexicalBucket(records: seq<Record>, ranked: seq<Hit>, es: seq<Example>, section: string, docType: string,
                      target: Label, scorer: Scorer, corpus: seq<seq<Token>>, query: seq<Token>)
    requires forall k :: 0 <= k < |ranked| ==>
      ranked[k].doc < |records| && InScope(records[ranked[k].doc], section, docType)
      && ranked[k].score == scorer(corpus, query, ranked[k].doc)
    requires forall k :: 0 <= k < |es| ==> Drawn(records, ranked, es[k], target)
    ensures forall k :: 0 <= k < |es| ==> LexicalExample(records, es[k], section, docType, target, scorer, corpus, query)
  {
    forall k | 0 <= k < |es|
      ensures LexicalExample(records, es[k], section, docType, target, scorer, corpus, query)
    {
      assert Drawn(records, ranked, es[k], target);
      var m :| 0 <= m < |ranked| && ranked[m].doc < |records|
        && records[ranked[m].doc].id == es[k].id && ranked[m].score == es[k].score
        && LabelOf(records[ranked[m].doc].labels) == target;
      assert InScope(records[ranked[m].doc], section, docType);
    }
  }

  /** When no row has the query's section and type, both buckets are empty. */
  lemma LexicalEmptyScope(records: seq<Record>, section: string, docType: string, scorer: Scorer,
                          corpus: seq<seq<Token>>, query: seq<Token>, statementId: string, topK: nat)
    requires forall j :: 0 <= j < |records| ==> !InScope(records[j], section, docType)
    ensures LexicalRanking(records, section, docType, scorer, corpus, query) == []
    ensures Assembled(records, LexicalRanking(records, section, docType, scorer, corpus, query), statementId, topK)
      == Buckets([], [])
  {
  }

  /** The lexical retriever over a corpus table. It is not changed after it is built. */
  class CtrBm25Okapi {
    const records: seq<Record>
    const topK: nat
    /** One token sequence per record, the index the scoring primitive is fitted on. */
    const corpus: seq<seq<Token>>
    const tokenize: string -> seq<Token>
    const scorer: Scorer

    constructor (records: seq<Record>, tokenize: string -> seq<Token>, scorer: Scorer, topK: nat)
      ensures this.records == records && this.topK == topK
      ensures this.tokenize == tokenize && this.scorer == scorer
      ensures |corpus| == |records|
      ensures forall i :: 0 <= i < |records| ==>
        corpus[i] == tokenize(records[i].evidence) + tokenize(records[i].statement)
    {
      this.records := records;
      this.topK := topK;
      this.tokenize := tokenize;
      this.scorer := scorer;
      var tokens := BuildCorpus(records, tokenize);
      this.corpus := tokens;
    }

    /** A query's result: the scoped rows ranked by BM25 score, assembled into the
        contradiction and entailment buckets. */
    method GetDocumentScores(query: string, section: string, docType: string, statementId: string)
      returns (b: Buckets)
      ensures InCorpus(records, LexicalRanking(records, section, docType, scorer, corpus, tokenize(query)))
      ensures b == Assembled(records, LexicalRanking(records, section, docType, scorer, corpus, tokenize(query)),
                             statementId, topK)
    {
      var docIds := ScopedIds(records, section, docType);
      var processedQuery := tokenize(query);
      var scored := ScoreHits(docIds, scorer, corpus, processedQuery);
      var rankedDocuments := SortByScore(scored);
      LexicalRankingInCorpus(records, section, docType, scorer, corpus, processedQuery);
      b := AssembleBuckets(records, rankedDocuments, statementId, topK);
    }
  }
}
